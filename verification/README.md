# Verified models of the dashboard runtime and the anonymizer

This project models five parts of the repository in Dafny and proves what they promise.

1. **The dashboard scheduler** (`runtime/v1/dash.js`). `Dash` describes it as a step system:
   one event is one uninterrupted turn of the JavaScript event loop (the boot starts or goes
   on, a waiting consumer resumes, a fetch answers or fails, a parameter changes).
   `DashRuntime.SpecRuntime` is the imperative runtime, field by field, proved to move the
   state exactly as the step system says. `DashInvariant` is what every event keeps;
   `DashStarts` is what all events that start runs have in common; `DashLaws`,
   `DashHistory`, `DashOvertaken`, `DashReplay`, `DashProgress` and `DashStall` hold the
   theorems over whole runs; `DashStale` says which queries can go stale, and `DashExample`
   is one concrete run that goes wrong. `Interpolate`, `Substitution`, `ParamLaws` and
   `Literals` are parameter substitution, validation, the text search that finds affected
   queries, and the rendered literals; `Layout` is the panel grid.
2. **The anonymizing rewriter and its identifier map** (`anon/internal/sqllex`, `idmap`,
   `token`, and `observe` in `discover/run.go`). `Regex` gives regular expressions Go's
   leftmost-first meaning and `SqlLexer` transcribes the token regexp literally, so the lexer
   theorems are about that regexp; `Scanner` is the same lexer written out by hand.
   `RewriteLaws` and `RewriteTexts` say what comes out of a text, `CatalogLaws` which names
   of a catalog get a token. HMAC is an arbitrary function to 64 hex digits; that both
   token lengths truncate one digest is the only fact used about it.
3. **The sandbox ownership protocol** (`sandbox.go`, `store.go`, `cleanup` in `main.go`).
   `Ownership` is any number of runs and cleanups interleaved one statement at a time with
   crashes and foreign users; `Sandbox.Destination` is the imperative code of one run or one
   cleanup, stopping after any number of statements; `OwnershipProgress` says what each
   achieves undisturbed.
4. **Codecs**: TSV tables (`Tsv`, `TsvRoundTrip`) and `Array(String)` cells (`ArrayCell`).
5. **Ticks and scales** (`Ticks`), over exact reals.

Where a promise turned out not to hold on all inputs, the code is modelled as it is, a lemma
gives an input on which it fails, and another says exactly when it holds:

- A panel fed by another may disagree with it after both have succeeded, and a sequential
  boot may stall for ever, when parameters change during the boot
  (`DashExample.ChangesCanStallBoot`). A panel agrees whatever the server answers exactly
  when its source's newest run did not come back after its own, or its transform ignores
  the rows (`DashReplay.AgreementIff`); that can only go wrong while the boot is between
  the two (`DashOvertaken.OvertakenBetween`), and everywhere else panels agree along whole
  chains (`DashLaws.AgreementOverAllRuns`). The boot goes on exactly when it is not waiting
  for a deferred that was replaced before it was settled (`DashStall.BootGoesOnIff`).
- `Build` checks observed names against the reserved namespace but not kept ones. A
  disclosed database may be named like a column's token, and then the token stands for two
  names, under every key (`Disclosure.DisclosedNameBreaksDetokenization`); every token
  stands for one name exactly when no token is another kept name, of whatever kind
  (`IdentifierMapLaws.DetokenizationIff`).
- `vocabKeep` strips greedily in list order and misses some stacked combinators
  (`Vocabulary.SimpleStateMissed`, `CompleteIff`).
- A text, observed itself or not, is rewritten without failing closed on an identifier
  exactly when the observe waves have met all its names (`RewriteLaws.TextIsTotalIff`); in
  an observed text only quoted identifiers with an empty name are missing
  (`Discover.UnmappedIffEmptyQuoted`).
- A one-column table loses its trailing empty-string rows, and with an empty column type
  possibly its header (`TsvRoundTrip.TableRoundTrip`).
- `setParam` accepts a value below the minimum for every parameter whose name is not an
  identifier (`ParamLaws.OtherNamesAcceptInvalid`, and `UnprobedNameAcceptsInvalid` for the
  name "a b"), and keeps invalid values out exactly when it is one
  (`ParamLaws.SetsOnlyValidIff`); `ParamLaws.AcceptsIffValid` says for any call what it
  accepts.
- Rendering doubles quotes but leaves backslashes, so the option `\` renders to a literal
  that is not closed (`Literals.BackslashOptionUnquotes`). A literal is one string token
  exactly when each backslash of its value escapes a character, and that is neither a quote
  nor a newline (`Literals.LiteralIsOneToken`); all literals of a declared parameter are
  exactly when its options or its pattern rule other values out (`Literals.SafeTypeIff`).
- The search for affected queries sees exactly two families of placeholder spellings
  (`ParamLaws.SearchSeesIff`). Any query that refers to a name it does not find goes stale
  after one change (`DashStale.MissedGoesStale`); a query never does exactly when the search
  finds every name in it by some spelling (`DashStale.NeverStaleIff`).
- "Never touch foreign objects" fails for tables that others put into the tool's databases:
  over every run, the tool takes something foreign away exactly when a cleanup drops a
  registered, unprotected database with a foreign table in it
  (`Ownership.OwnershipOverAllRuns`), and some run does (`Ownership.SquatterIsLost`).
- Dots in database names can make two registry rows equal and cleanup misread one
  (`Ownership.DottedNamesCollide`). Rows are unique exactly when no database is named like
  another one, a dot and anything more (`Ownership.RowsUniqueIff`), and a row is read back
  exactly when its database has no dot (`Ownership.ReadsBackIff`).

`dafny verify dfyconfig.toml` checks everything.

## Model

| member | source | states |
|---|---|---|
| DashRuntime.SpecRuntime.Handle | runtime/v1/dash.js:257-496 | whichever event happens, the runtime's fields end up as the step system's next state, so every theorem about the step system is one about the runtime |
| DashRuntime.SpecRuntime.RunPanel | runtime/v1/dash.js:376-433 | a run bumps the epoch, then either ends at once (query and source together, unknown or later source, no query, interpolation error) with its deferred resolved, or suspends on the source's current deferred or on a fetch |
| DashRuntime.SpecRuntime.ComeBack | runtime/v1/dash.js:402-449 | a run that comes back writes rows, outcome and deferred of its panel if its epoch is still current, and otherwise nothing |
| DashRuntime.SpecRuntime.Resume | runtime/v1/dash.js:399-424 | a resumed consumer takes the source's rows of that moment through its transform; a transform that throws leaves its rows as they were |
| DashRuntime.SpecRuntime.Answered | runtime/v1/dash.js:434-449 | an answer of the newest run becomes the panel's rows even when rendering throws |
| DashRuntime.SpecRuntime.Faulted | runtime/v1/dash.js:441-449 | a failed fetch of the newest run resolves the deferred and leaves the rows |
| DashRuntime.SpecRuntime.InstallLoadedDeferred | runtime/v1/dash.js:502-504 | the panel gets a deferred no one has seen, with its resolver; the old one keeps its state |
| DashRuntime.SpecRuntime.ResolveLoaded | runtime/v1/dash.js:505-510 | settles the current deferred unless its resolver was used before |
| DashRuntime.SpecRuntime.Directly | runtime/v1/dash.js:455-463 | the panels whose query mentions the parameter, or all of them, in panel order |
| DashRuntime.SpecRuntime.CloseOverSources | runtime/v1/dash.js:467-479 | the loop of sweeps ends, with the fixpoint of single sweeps |
| DashRuntime.SpecRuntime.RerunAffected | runtime/v1/dash.js:452-496 | every affected panel gets its new deferred before the first new run starts, and runs start in the order panels joined |
| DashRuntime.SpecRuntime.SetParam | runtime/v1/dash.js:257-285 | a rejected call leaves the whole state as it was; an accepted one stores the coerced value and re-runs what it affects |
| DashRuntime.SpecRuntime.CommitParam | runtime/v1/dash.js:145-148 | the toolbar stores without validating and re-runs what it affects |
| DashRuntime.SpecRuntime.BootFrom | runtime/v1/dash.js:370-372 | the sequential boot starts one panel and awaits that very run, or is done |
| DashRuntime.SpecRuntime.BootAll | runtime/v1/dash.js:367-368 | the concurrent boot starts every panel in one turn, in panel order |
| DashInvariant.EventInv | runtime/v1/dash.js:257-510 | every event keeps the invariant: newest run and pending panel belong together, a waiting newest run waits for its source's current deferred, no run for another panel's, a finished panel's deferred is resolved, a finished consumer behind a changing source will still be started by the boot |
| DashInvariant.RerunIsLeastClosure | runtime/v1/dash.js:455-479 | the panels re-run are the least set with the directly affected ones that is closed under source edges |
| DashInvariant.OneSweepSuffices | runtime/v1/dash.js:464-479 | when every source precedes its consumers, as the comment in the source says, the first sweep already finds them all, in the same order |
| DashLaws.AgreementOverAllRuns | runtime/v1/dash.js:376-496 | after any interleaving of answers, failures, resumptions and parameter changes, unless the boot is just between a panel and its source, a fed panel that succeeded holds exactly its transform of its source's present rows, and along a chain of such panels all agree; and a query panel that succeeded answers what the present parameters ask, if the search for affected queries finds every name in it |
| DashLaws.ChainAgrees | runtime/v1/dash.js:399-424 | along a whole chain of sources, none with the boot between it and its consumer, the last rows are the first panel's rows through all the transforms |
| DashOvertaken.EventMoves | runtime/v1/dash.js:376-496 | an event gives a panel a new newest run or leaves what it has unless its newest run comes back; once the boot has started a source, any new run of it comes with one of its consumers |
| DashOvertaken.NotOvertakenAgrees | runtime/v1/dash.js:399-424 | a succeeded panel, of whatever source, agrees with it unless the source's newest run came back after the panel's own |
| DashOvertaken.OvertakenBetween | runtime/v1/dash.js:367-373 | that can happen only to panels the boot has still to start while it has started their source |
| DashReplay.ReplayAlike | runtime/v1/dash.js:434-449 | other answers to one run change neither which events can happen afterwards nor which run comes back after which |
| DashReplay.AgreementIff | runtime/v1/dash.js:376-496 | over all runs, a succeeded panel fed by a query panel agrees with it, whatever the server answers the source's newest run, if and only if that run did not come back after the panel's own or the panel's transform makes the same of all rows |
| DashHistory.ResumeShows | runtime/v1/dash.js:399-424 | when a fed panel's newest run resumes, it takes the present rows of the panel named as its source through its transform, under the present parameters; a transform that throws leaves the rows and fails the panel |
| DashHistory.ReplyShows | runtime/v1/dash.js:434-449 | when a newest fetch answers, the panel shows the answer and records the query that was sent, and fails if rendering throws; when it fails, the rows stay |
| DashHistory.OutdatedShowsNothing | runtime/v1/dash.js:402-449 | a run that is no longer the newest of its panel changes nothing by coming back |
| DashHistory.StartDoes | runtime/v1/dash.js:376-433 | what starting a panel does, by its source and query: the interpolated query is sent, the source's current deferred awaited, or the run ends at once, as success only without both |
| DashHistory.DirectlyIff | runtime/v1/dash.js:455-463 | a change re-runs directly exactly the panels in whose query one of the two texts stands, and one without a name all panels |
| DashHistory.ParamsMove | runtime/v1/dash.js:257-285 | the toolbar stores the value as typed, setParam the coerced one or nothing at all, and no other event changes a parameter |
| DashHistory.OkCameFromReturn | runtime/v1/dash.js:376-450 | over all runs, a succeeded panel shows what one event of the run made of the state just before it: of a fed panel, the source's rows of that moment through the transform under the parameters of that moment; of a query panel, the answer to the query it had sent |
| DashHistory.StaticStaysPlain | runtime/v1/dash.js:414-424 | a panel with neither source nor query never shows rows, waits or fails |
| DashLaws.LatestRunOnly | runtime/v1/dash.js:376-450 | a panel's rows change only when its newest run comes back, and its current deferred is settled only once its newest run has finished |
| DashProgress.FirstPendingReady | runtime/v1/dash.js:385-402 | whenever some panel is pending, some newest run can come back now: forward sources are errors, so waiting has no cycles |
| DashProgress.Quiesces | runtime/v1/dash.js:376-450 | from every reachable state, runs coming back are enough to leave no newest run pending, in at most as many steps as there are suspended runs |
| DashProgress.BootAdvances | runtime/v1/dash.js:367-424 | without parameter changes every event of a boot decreases a measure |
| DashProgress.BootNeverStuck | runtime/v1/dash.js:367-424 | without parameter changes an unfinished boot, sequential or concurrent, always has an event that can happen |
| DashProgress.BootCompletes | runtime/v1/dash.js:367-424 | a boot without parameter changes takes at most 2n+2 events and stops only where every deferred is resolved, every panel finished, and every panel with a query besides its source, an unknown or a later source failed |
| DashStarts.EventStarts | runtime/v1/dash.js:367-496 | an event that starts runs starts each panel at most once, keeps all rows and all runs under way, settles only deferreds of panels it starts and finishes at once, and starts a source the boot is past only together with its consumers |
| DashStall.StalledForEver | runtime/v1/dash.js:370-372 | once the awaited run's deferred was replaced unsettled, the boot starts no further panel, whatever follows |
| DashStall.EventStalled | runtime/v1/dash.js:486-505 | every event, parameter changes included, leaves a stalled boot stalled |
| DashStall.BootGoesOnIff | runtime/v1/dash.js:370-372 | in every reachable state a waiting boot can go on without further changes if and only if it is not stalled |
| DashStall.QuiescentAgreement | runtime/v1/dash.js:367-496 | when only parameter changes can happen any more, no newest run is pending, and either the boot has started everything, every panel has finished and every succeeded one agrees with its whole chain of sources, or it is stalled, and every panel it is not stuck before agrees |
| DashStale.MissedGoesStale | runtime/v1/dash.js:452-463 | for every query that refers to a name the search does not find, a dashboard of that panel alone shows, after one parameter change, what the old value asked for |
| DashStale.NeverStaleIff | runtime/v1/dash.js:376-496 | in all dashboards and runs every succeeded panel with this query shows what the present parameters ask for, if and only if the search finds every name it refers to |
| DashExample.ChangesCanStallBoot | runtime/v1/dash.js:370-372 | a concrete run of four panels and three parameter changes after which nothing is pending, only changes can happen, the boot is stalled for good and a succeeded panel disagrees with its succeeded source |
| Layout.LayoutPanels | runtime/v1/dash.js:163-186 | every panel is laid out once and in order, in rows of one width within 12 columns, and no order-preserving grouping into such rows needs fewer |
| Layout.RowIff | runtime/v1/dash.js:167-184 | a row is one panel of any width, two of width 6, or two or three of width 4 |
| Layout.TakeRow | runtime/v1/dash.js:171-178 | one row takes as many panels of the first one's width as follow, up to two of width 6 or three of width 4 |
| Layout.GreedyIsAhead | runtime/v1/dash.js:163-186 | after r rows of any layout, the greedy one has covered at least as much |
| Interpolate.PlaceholderIsRegexp | runtime/v1/core/interpolate.js:14-14 | the scanner finds exactly what a backtracking search for the placeholder regexp finds first, at every position of every text |
| Interpolate.PlaceholderShape | runtime/v1/core/interpolate.js:14-14 | a placeholder is double braces around spaces, an identifier and spaces |
| ParamLaws.PiecesCover | runtime/v1/core/interpolate.js:13-15 | the pieces of a template concatenate back to it: one pass, nothing rescanned |
| Substitution.LiteralIsItself | runtime/v1/core/interpolate.js:13-15 | a text without placeholders interpolates to itself |
| Substitution.InterpolatesInPlace | runtime/v1/core/interpolate.js:12-53 | the first placeholder of a template, in any spacing, becomes its parameter's literal, between the text before it, unchanged, and the interpolation of what follows; it throws if the parameter is unknown or invalid or the rest throws |
| ParamLaws.InterpolatesIffValid | runtime/v1/core/interpolate.js:12-53 | a template interpolates if and only if every placeholder names a declared parameter whose value is valid for its type |
| Literals.IntValidIff | runtime/v1/core/interpolate.js:20-29 | an int parameter takes exactly the whole numbers from min to max and renders them as JavaScript does; strings count by their number, null as zero |
| Literals.TextValidIff | runtime/v1/core/interpolate.js:30-48 | an enum takes its options, a string what its pattern, or the built-in alphabet, admits up to its length |
| Literals.DateValidIff | runtime/v1/core/interpolate.js:35-38 | a date takes exactly the texts that match its regexp from end to end |
| Literals.LiteralUnquotes | runtime/v1/core/interpolate.js:30-48 | a rendered enum, date or string is the quoted text of the value and unquotes to it |
| Literals.LiteralIsOneToken | runtime/v1/core/interpolate.js:30-48 | a rendered enum, date or string is a single string token to the SQL lexer, whatever follows but a quote, if and only if every backslash of the value escapes something other than a quote or a newline |
| Literals.SafeTypeIff | runtime/v1/core/interpolate.js:30-48 | all valid values of a parameter are so if and only if its options, or the texts its custom pattern accepts, are; dates and the built-in pattern always are |
| Literals.BackslashOptionUnquotes | runtime/v1/core/interpolate.js:30-34 | the enum option of one backslash is valid, and renders to a quote, a backslash and a quote, which stays open |
| ParamLaws.SpacedIsPlaceholder | runtime/v1/core/interpolate.js:14-14 | an identifier in double braces with any spaces around it is one placeholder |
| ParamLaws.ProbeValidates | runtime/v1/dash.js:270-280 | probing an identifier-named parameter runs exactly its own validation |
| ParamLaws.AcceptsIffValid | runtime/v1/dash.js:257-285 | setParam accepts exactly the declared, coercible and valid values of an identifier-named parameter; under any other name the value's validity plays no part, only that of the placeholders that happen to be in the name |
| ParamLaws.IntIsSetIff | runtime/v1/dash.js:260-281 | an int parameter is set by dropping the fraction of the number given, if what is left is within the bounds, and left alone otherwise |
| ParamLaws.TruncIsTowardZero | runtime/v1/dash.js:264-264 | dropping the fraction goes towards zero, for negative numbers too |
| ParamLaws.TextIsSetIff | runtime/v1/dash.js:266-281 | any other parameter is set to the text of the value, null and undefined being empty except for a date, if that text is valid |
| ParamLaws.SetsOnlyValidIff | runtime/v1/dash.js:262-280 | whatever is declared and set, setParam keeps invalid values of a parameter out if and only if its name is an identifier |
| ParamLaws.OtherNamesAcceptInvalid | runtime/v1/dash.js:276-280 | for every name that is no identifier there are declarations under which -1 passes below the minimum 0 |
| ParamLaws.ParamsStayValid | runtime/v1/dash.js:257-285 | from valid defaults, after any sequence of setParam calls every identifier-named parameter is valid, and every template over declared parameters interpolates |
| ParamLaws.UnprobedNameAcceptsInvalid | runtime/v1/dash.js:276-280 | so with a parameter named "a b" as the only one |
| ParamLaws.RefsAreIdents | runtime/v1/core/interpolate.js:14-17 | only identifiers are ever looked up, so a parameter with another name can never break a template |
| ParamLaws.UnmentionedUnchanged | runtime/v1/dash.js:456-463 | a query the search passes over would be sent unchanged, if the search finds every name it refers to by one spelling or another |
| ParamLaws.SearchSufficesIff | runtime/v1/dash.js:456-463 | passing over a query is right for all declarations, parameters and changes if and only if the search finds every name it refers to |
| ParamLaws.SearchSeesIff | runtime/v1/dash.js:459-460 | of all spellings of one placeholder the search sees exactly those with no space at all and those with one blank before the name |
| ParamLaws.MentionedAnywhere | runtime/v1/dash.js:459-460 | what the search finds in a text it finds wherever that text stands, and only in texts with two opening braces |
| Token.MintSplits | anon/internal/token/token.go:46-61 | equal tokens have equal kind and length, whatever the kinds |
| Token.WideDeterminesNarrow | anon/internal/token/token.go:58-61 | equal 16-hex tokens come from equal 8-hex ones, both being truncations of one digest |
| Token.NarrowPrefixesWide | anon/internal/token/token.go:58-61 | the 8-hex token is a proper prefix of the 16-hex one |
| Token.MintedIsReserved | anon/internal/token/token.go:23-35 | every token of a kind in use lies in the reserved namespace |
| Token.ReservedIff | anon/internal/token/token.go:33-35 | reserved are exactly the names made of one of the twelve kinds, an underscore and 8 to 16 lower-case hex digits |
| IdentifierMap.IdMap.KeepVerbatim | anon/internal/idmap/idmap.go:38-46 | adds a non-empty name to the kept names and changes nothing else |
| IdentifierMap.IdMap.Observe | anon/internal/idmap/idmap.go:48-56 | adds a name unless it is empty or kept |
| IdentifierMap.IdMap.Build | anon/internal/idmap/idmap.go:61-105 | succeeds if and only if no observed name is reserved and no kind has a 16-hex collision; the map is then a function of the observed and kept names alone, whatever order they are visited in, and Collisions grows by the number of widened groups |
| IdentifierMapLaws.BuildableIff | anon/internal/idmap/idmap.go:58-87 | that is, if and only if no observed name is a kind, an underscore and 8 to 16 hex digits, and no two names of a kind share the first 16 digits of their digests |
| IdentifierMapLaws.EntryIs | anon/internal/idmap/idmap.go:61-105 | a kept name maps to itself; an observed one to its kind, an underscore and the first 8 digits of its digest, or 16 if another observed name of the kind shares the 8; no other name maps |
| IdentifierMapLaws.CollidedIff | anon/internal/idmap/idmap.go:73-78 | the collisions counted are the 8-digit tokens that two observed names of one kind share |
| IdentifierMap.IdMap.BuildKind | anon/internal/idmap/idmap.go:63-93 | one kind, with the reason for a failure being a real one |
| IdentifierMap.IdMap.GroupByToken | anon/internal/idmap/idmap.go:65-72 | groups names by 8-hex token, or reports a reserved one |
| IdentifierMap.IdMap.MintGroups | anon/internal/idmap/idmap.go:73-88 | fails if and only if two names of the kind share a 16-hex token, though only names of one group are compared |
| IdentifierMap.IdMap.MintGroup | anon/internal/idmap/idmap.go:73-88 | a singleton keeps its 8-hex token, a larger group gets 16-hex tokens |
| IdentifierMap.IdMap.FillKeptOnly | anon/internal/idmap/idmap.go:94-103 | kinds with kept names only map each to itself |
| IdentifierMap.IdMap.Known | anon/internal/idmap/idmap.go:129-142 | the names observed under the probe kinds and all kept names |
| IdentifierMap.AllGroupsDistinct | anon/internal/idmap/idmap.go:73-88 | pairwise checks inside groups rule out 16-hex collisions across groups |
| IdentifierMap.CollidedGrows | anon/internal/idmap/idmap.go:78-78 | widened groups of different kinds never share a token, so the counter counts each once |
| IdentifierMapLaws.TokensInjective | anon/internal/idmap/idmap.go:58-105 | after a successful Build with kept names outside the reserved namespace, two entries share a token only when they are the same name, and across kinds only when both are kept: de-tokenization is a function |
| IdentifierMapLaws.SameKindInjective | anon/internal/idmap/idmap.go:73-88 | within a kind narrow tokens, wide tokens and the two together never coincide for different names |
| IdentifierMapLaws.DetokenizationIff | anon/internal/idmap/idmap.go:58-105 | after a successful Build, equal tokens of whatever kinds belong to equal names if and only if no token of an observed name is another name kept under any kind |
| IdentifierMapLaws.KindInjectiveIff | anon/internal/idmap/idmap.go:89-92 | the map of one kind, by itself, is injective if and only if no name kept under it is the token of an observed one |
| Disclosure.DisclosedNameBreaksDetokenization | anon/internal/discover/run.go:398-415 | under every key, observing a catalog whose disclosed database is named like the token of one of its columns succeeds, and gives the database and the column one token |
| IdentifierMapLaws.GrowthOnlyWidens | anon/internal/idmap/idmap.go:73-88 | observing more names changes an old token at most from its 8-hex form to the 16-hex form that extends it |
| IdentifierMapLaws.GrowthKeepsFailure | anon/internal/idmap/idmap.go:61-105 | a failed Build cannot be repaired by observing more names |
| Regex.StarStep | anon/internal/sqllex/sqllex.go:108-117 | a greedy star gives one iteration back exactly when what follows cannot match otherwise |
| Regex.ConsumingAdvances | anon/internal/sqllex/sqllex.go:108-117 | a regexp without an empty alternative only has matches that advance |
| Regex.FirstEndShift | anon/internal/sqllex/sqllex.go:108-124 | what precedes a position does not change how it matches |
| SqlLexer.Lex | anon/internal/sqllex/sqllex.go:122-133 | the loop yields the left-to-right matches of the token regexp |
| SqlLexer.MatchGroupIsRegexp | anon/internal/sqllex/sqllex.go:124-130 | taking the first group that took part in the match is the same as trying the groups one by one |
| Scanner.ScanIsRegexp | anon/internal/sqllex/sqllex.go:108-117 | at every position of every text the token regexp finds exactly what a hand-written scanner does: runs of spaces, comments to the end of the line or to the first closing, quoted tokens, hex, binary and decimal numbers with fraction and exponent, and words |
| SqlLexer.LexCovers | anon/internal/sqllex/sqllex.go:121-133 | for every text, no token is empty and the tokens concatenate back to the text |
| SqlLexer.LexedShift | anon/internal/sqllex/sqllex.go:122-133 | what follows a position decides how it lexes |
| SqlQuoting.QuoteEndIsRegexp | anon/internal/sqllex/sqllex.go:112-114 | a direct scanner finds the quoted token a backtracking search finds first, including the back-off from a doubled quote |
| SqlQuoting.LexWellQuoted | anon/internal/sqllex/sqllex.go:112-114 | every quoted token has both its quotes and no unpaired quote between them |
| SqlQuoting.WellQuotedLexes | anon/internal/sqllex/sqllex.go:108-133 | every such text lexes back as that one token, whatever follows but its own quote |
| SqlQuoting.QIdentRoundTrip | anon/internal/discover/sandbox.go:202-204 | for every name, embedded backticks included, lexing the quoted form gives one backtick token whose name is that name |
| SqlQuoting.BacktickTokenIsQIdent | anon/internal/sqllex/sqllex.go:135-143 | every backtick token in any text is the quoted form of its name |
| SqlQuoting.DQuoteRoundTrip | anon/internal/sqllex/sqllex.go:139-141 | a name without backslashes is read back from double quotes, its own quotes doubled |
| SqlQuoting.SqlStrIsOneToken | anon/internal/discover/sandbox.go:206-208 | a literal around an escaped value is one string token for every value |
| SqlQuoting.OpenBacksOff | anon/internal/sqllex/sqllex.go:112-114 | when nothing closes a quoted body, the match fails or backs off to the first half of a doubled quote, whose second half opens another body that nothing closes |
| SqlQuoting.StrayIffUnclosed | anon/internal/sqllex/sqllex.go:108-143 | the lexer reports a stray quote if and only if a quote of that kind opens a token and nothing closes it, whatever quotes and escapes are inside |
| SqlQuoting.UnclosedBacksOff | anon/internal/sqllex/sqllex.go:112-114 | any quoted token with its closing quote written once more is that token and a stray quote |
| Text.EscapeQuotesStep | anon/internal/discover/sandbox.go:206-208 | the two replacement passes escape one character at a time |
| Text.DoubleThenHalve | anon/internal/sqllex/sqllex.go:135-143 | halving doubled quotes undoes doubling them |
| Vocabulary.VocabKeep | anon/internal/sqllex/sqllex.go:214-233 | the stripping loop ends, and computes the greedy suffix recursion |
| Vocabulary.ClusterCombinators | anon/internal/discover/run.go:514-522 | the combinators in the cluster's order, upper-cased, never an empty one |
| Vocabulary.CombinatorsInOrder | anon/internal/discover/run.go:514-522 | each name in turn adds itself in upper case, or nothing if it is empty |
| Vocabulary.KeepsOnlyStacked | anon/internal/sqllex/sqllex.go:212-233 | a word is kept only if it is a registered word followed by zero or more combinators |
| Vocabulary.CompleteIff | anon/internal/sqllex/sqllex.go:212-233 | every stacked word is recognized, for all registries, if and only if each combinator ending in another is listed after one it ends in and is itself built from such ends |
| Vocabulary.SimpleStateMissed | anon/internal/sqllex/sqllex.go:219-231 | with State listed before SimpleState, sumSimpleState is stacked but not kept |
| SqlRewriter.Rewriter.IdentifierWords | anon/internal/sqllex/sqllex.go:260-283 | all quoted names and all words that are neither keyword nor vocabulary, in order |
| SqlRewriter.Rewriter.Rewrite | anon/internal/sqllex/sqllex.go:287-319 | while map and vocabulary stay the same, a cached answer and a fresh one are equal and the cache stays so; counters grow by exactly the substitutions and redactions of an uncached rewrite |
| SqlRewriter.Rewriter.RewriteFresh | anon/internal/sqllex/sqllex.go:298-316 | a text with a stray quote is redacted whole; any other is the concatenation of its tokens' rewrites |
| SqlRewriter.Rewriter.RewriteTok | anon/internal/sqllex/sqllex.go:347-392 | the rewrite of one token and its counters, case by case |
| SqlRewriter.Rewriter.MustSQL | anon/internal/sqllex/sqllex.go:394-402 | the sql token of a name, or the redaction marker |
| Discover.Observe | anon/internal/discover/run.go:395-493 | the names kept are default, system and a disclosed source database; the names observed are wave one, then the free-text words unknown after it |
| Discover.ObserveAndBuild | anon/internal/discover/run.go:395-493 | Build succeeds exactly when the two waves are buildable, and the rewriter then works through their map |
| CatalogLaws.StructuredIff | anon/internal/discover/run.go:416-464 | the first wave observes, each under its own kind, exactly the databases, tables, columns, custom keys, relation ends, dictionaries, hot users, hot columns and clusters of the catalog |
| CatalogLaws.WordsIff | anon/internal/discover/run.go:478-491 | the second wave looks at exactly the identifiers of the tables' three texts and of the representative queries |
| CatalogLaws.MappedIff | anon/internal/discover/run.go:395-493 | after Build exactly these have an entry: the kept databases, every other non-empty name of the catalog under its kind, and under sql every non-empty identifier of those texts that is none of these |
| CatalogLaws.MentionedHasToken | anon/internal/discover/run.go:475-491 | every identifier of every query and table text of the catalog has a token, unless its name is empty |
| Discover.KnownFinds | anon/internal/sqllex/sqllex.go:321-336 | a lookup fails only when no probe kind has the name, whatever order it starts from |
| Discover.RedactsOnlyUnmapped | anon/internal/sqllex/sqllex.go:347-402 | an identifier is redacted if and only if it has no token under any probe kind nor sql |
| Discover.TokenIffSighted | anon/internal/discover/run.go:398-492 | the names with a token the rewriter can find are exactly the non-empty ones the two waves have met: structured, kept, or a word of an observed text |
| Discover.UnmappedIffUnsighted | anon/internal/sqllex/sqllex.go:347-402 | in any text at all, an identifier is without a token exactly when neither wave has met its name |
| Discover.UnmappedIffEmptyQuoted | anon/internal/discover/run.go:467-492 | in a text the observe waves saw, the identifiers without a token are exactly the quoted ones with an empty name |
| RewriteLaws.RedactionsCounted | anon/internal/sqllex/sqllex.go:347-402 | the redactions of a text are its unsafe literals and its identifiers without a token, one each |
| RewriteTexts.RewrittenInOrder | anon/internal/sqllex/sqllex.go:310-318 | a value that is not redacted whole becomes the outputs of its tokens, one after the other |
| RewriteTexts.OthersComeOut | anon/internal/sqllex/sqllex.go:347-369 | spaces, punctuation and safe strings stay, other strings become the redaction marker, numbers 0 if strict, line comments nothing and block comments a blank |
| RewriteTexts.LiteralComesOut | anon/internal/sqllex/sqllex.go:146-159 | wherever it stands, the quoted literal of a value comes out as it is if the value is empty, all digits or a safe word, and as the redaction marker otherwise |
| RewriteTexts.SafeTests | anon/internal/sqllex/sqllex.go:146-159 | for any set of safe words, what is tested is the value with adjacent quotes halved |
| RewriteTexts.UntouchedText | anon/internal/sqllex/sqllex.go:310-369 | a text of keywords, spaces, punctuation, safe strings and numbers is rewritten to itself unless strict |
| RewriteTexts.IdentifierComesOut | anon/internal/sqllex/sqllex.go:370-402 | a bare keyword stays; any other identifier takes the token of the first kind that has its name, else a bare vocabulary word stays, else it takes the sql token or the redaction marker |
| RewriteTexts.KnownInOrder | anon/internal/sqllex/sqllex.go:161-195 | in front of a dot databases and tables are tried first, between two dots tables, anywhere else columns, comments and spaces aside, and then all other kinds |
| RewriteLaws.TextIsTotalIff | anon/internal/sqllex/sqllex.go:394-402 | any text, column types and relation details included, has only its literals redacted if and only if the waves have met all the names in it |
| RewriteLaws.ObservedTextIsTotal | anon/internal/sqllex/sqllex.go:394-402 | a text each of whose identifier words is non-empty and went through the observe waves, in that text or another, is rewritten without failing closed on any identifier |
| RewriteLaws.RewriteObserved | anon/internal/sqllex/sqllex.go:287-319 | rewriting through an observed map, a cached answer equals a fresh one and adds nothing to the count of redactions; a fresh balanced one adds exactly its literals if and only if all its names were met |
| RewriteLaws.OneNameOneToken | anon/internal/sqllex/sqllex.go:182-195 | a name mapped under one probe kind becomes that token at every occurrence in every text, quoted or bare, whatever the dots around it, unless it is a bare keyword |
| RewriteLaws.KnownIsFirst | anon/internal/sqllex/sqllex.go:321-336 | when several kinds have the name, the first of the probe order decides |
| RewriteLaws.OnlyVocabularySurvives | anon/internal/sqllex/sqllex.go:347-402 | after Build, an identifier comes out unchanged only as keyword, vocabulary or kept name; any other becomes a reserved token or the redaction marker |
| RewriteLaws.UnclosedFailsClosed | anon/internal/sqllex/sqllex.go:299-309 | a value is redacted whole if some quote in it, of whatever kind, opens a token that nothing closes, and is rewritten token by token otherwise |
| Ownership.ReadsBackIff | anon/cmd/anond/main.go:430-430 | splitting a registered name at its first dot recovers database and table if and only if the database has none |
| Ownership.RowsUniqueIff | anon/internal/discover/sandbox.go:253-253 | over any set of databases, a registry row names one object if and only if no database is another one's name, a dot and anything more |
| Ownership.DottedNamesCollide | anon/internal/discover/sandbox.go:253-253 | a.b with c and a with b.c share a registry row, and cleanup would pick the second |
| Ownership.EventInv | anon/internal/discover/sandbox.go:212-272 | every statement of every process, every crash and every foreign action keeps the ownership invariant |
| Ownership.EventSafe | anon/internal/discover/sandbox.go:183-272 | of the foreign objects, an event of the tool takes away exactly the tables inside an unprotected database a cleanup is dropping |
| Ownership.RefusesExactlyForeign | anon/internal/discover/sandbox.go:192-199 | a run whose next name is taken aborts there if and only if a foreigner has it, tables inside the tool's own database included |
| OwnershipProgress.RunMaterializes | anon/internal/discover/sandbox.go:210-272 | a run that no one disturbs ends within five statements a target; foreign objects stay as they are, and if none has the name of a target, all targets are the tool's own and nothing else is new |
| OwnershipProgress.RunAlone | anon/internal/discover/sandbox.go:210-272 | it takes its targets in order, and stops at the first that is foreign, having changed nothing but those before it |
| OwnershipProgress.CleanupAlone | anon/cmd/anond/main.go:402-449 | a cleanup that no one disturbs drops exactly the tables its rows name and all of the databases they name, except in the five protected databases |
| Ownership.OwnershipOverAllRuns | anon/internal/discover/sandbox.go:183-272 | over every interleaving of runs, cleanups, crashes and foreign actions, what the tool created is registered and no foreign object's name is; and the tool takes something foreign away if and only if somewhere a cleanup drops a registered, unprotected database with a foreign table in it |
| Ownership.CleanupSparesProtected | anon/cmd/anond/main.go:402-449 | whatever the registry holds, a cleanup statement removes nothing from a protected database |
| Ownership.DropDatabaseCascades | anon/cmd/anond/main.go:440-448 | one drop of a registered database harms foreigners if and only if a foreign table is inside it |
| Ownership.SquatterIsLost | anon/cmd/anond/main.go:440-448 | a run from an empty cluster in which a foreign table put into the tool's database is lost to a cleanup |
| Sandbox.Destination.EnsureOurs | anon/internal/discover/sandbox.go:183-200 | tells absent, ours and foreign apart by the registry |
| Sandbox.Destination.RegisterObject | anon/internal/store/store.go:182-189 | the registry gains the object's row and nothing else changes |
| Sandbox.Destination.Materialize | anon/internal/discover/sandbox.go:236-272 | check, register, drop our old table, create: stopped after any statement, foreign objects are as before, inside our database too, and everything of ours is registered; it refuses exactly foreign names, and then has changed nothing |
| Sandbox.Destination.Sandbox | anon/internal/discover/sandbox.go:210-272 | a run never touches a foreign object; given its statements it refuses if and only if the database or one of its tables is foreign, and otherwise leaves all of them ours; it can only be cut short by fewer than 5 statements per target |
| Sandbox.Destination.Cleanup | anon/cmd/anond/main.go:425-449 | a completed cleanup leaves of the tool's objects only those in protected databases and takes of the foreign ones exactly the tables in its unprotected databases; a cut-short one has taken no others, and nothing protected |
| Sandbox.Destination.DropTable | anon/cmd/anond/main.go:429-439 | removes exactly the table of that registry row, which is never foreign, unless its database is protected |
| Sandbox.Destination.DropDatabase | anon/cmd/anond/main.go:440-449 | removes exactly the objects of that database, unless it is protected; the foreign ones among them are tables |
| Tsv.EscapeTSV | anon/internal/chclient/tsv.go:110-129 | escapes character by character |
| Tsv.Unescape | anon/internal/chclient/tsv.go:72-107 | decodes escapes from left to right, with its shortcut for texts without backslash |
| Tsv.WriteTSVRow | anon/internal/chclient/tsv.go:132-144 | appends one line for the row to the buffer |
| Tsv.SplitLines | anon/internal/chclient/tsv.go:44-59 | the lines of the payload without the trailing empty ones |
| Tsv.Header | anon/internal/chclient/tsv.go:62-69 | unescapes each header field |
| Tsv.ParseNT | anon/internal/chclient/tsv.go:15-42 | the rows, or the first of the three errors that applies |
| TsvRoundTrip.UnescapedEscaped | anon/internal/chclient/tsv.go:72-129 | decoding undoes encoding for every string |
| TsvRoundTrip.UnescapedIs | anon/internal/chclient/tsv.go:72-107 | a backslash and one of eight letters stand for one character each; any other backslash, and every other character, for itself |
| TsvRoundTrip.EscapedIs | anon/internal/chclient/tsv.go:110-129 | five characters are written as a backslash and a letter, all others as they are |
| TsvRoundTrip.FormatIs | anon/internal/chclient/tsv.go:31-38 | NULL is a backslash and N, tabs separate cells, a newline ends each row |
| TsvRoundTrip.CellRoundTrip | anon/internal/chclient/tsv.go:31-38 | NULL and every string have different cells, each read back, none with a separator in it |
| TsvRoundTrip.RowRoundTrip | anon/internal/chclient/tsv.go:132-144 | every row is read back from its line |
| TsvRoundTrip.TableRoundTrip | anon/internal/chclient/tsv.go:15-144 | every table is read back minus its maximal trailing block of rows holding one empty string; parsing fails if and only if that block swallows the type line |
| TsvRoundTrip.WrittenIsParsed | anon/internal/chclient/tsv.go:15-42 | of a header line, a type line and rows of whatever widths, reading gives all rows but the trimmed ones, or the first error that applies: fewer than two lines, unequal headers, the first row of another width |
| TsvRoundTrip.LastNewlineIsOptional | anon/internal/chclient/tsv.go:44-59 | a newline more at the end never matters |
| TsvRoundTrip.WideTableRoundTrip | anon/internal/chclient/tsv.go:15-144 | with two or more columns nothing is lost |
| ArrayCell.ParseStrArray | anon/internal/discover/mining.go:258-292 | the sorted items of the cell, each as often as it occurs; nothing for a text without brackets |
| ArrayCell.ParseItems | anon/internal/discover/mining.go:264-289 | the items from left to right, up to the first thing that is not one |
| ArrayCell.ReadString | anon/internal/discover/mining.go:274-287 | the content up to the first unescaped quote or the end, escapes removed |
| ArrayCell.SortedUnique | anon/internal/discover/mining.go:290-290 | a sorted arrangement of a multiset of strings is unique, so which sort is used does not matter |
| ArrayCell.ParsedItemsOfChArray | anon/internal/store/store.go:171-180 | the items read from a rendered list are that list, quotes, backslashes, commas and empty strings included |
| ArrayCell.ChArrayIs | anon/internal/store/store.go:171-180 | a list is rendered as quoted items between brackets, with single commas |
| ArrayCell.CellParsed | anon/internal/discover/mining.go:258-289 | a bracketed cell is read to its items whatever commas and blanks are between them, none included, and whichever characters are escaped; what follows the first thing that is no item is ignored |
| ArrayCell.UnbracketedHasNone | anon/internal/discover/mining.go:259-262 | a text without its brackets has no items |
| ArrayCell.LeqIsLexicographic | anon/internal/discover/mining.go:290-290 | the order of the sort is the lexicographic one |
| ArrayCell.ChArrayRoundTrip | anon/internal/store/store.go:171-180 | parsing a rendered list gives the list sorted |
| Ticks.NiceTicks | runtime/v1/charts/scales.js:42-66 | evenly spaced ticks that start at or just below min and end at or just above max, at least 0.6t+1 and fewer than 1.5t+3 of them; the two special answers for min = max |
| Ticks.Multiples | runtime/v1/charts/scales.js:59-64 | the loop stops exactly after the last multiple |
| Ticks.StepIsNice | runtime/v1/charts/scales.js:49-58 | the step is 1, 2, 5 or 10 times the power of ten below the ideal step, with the turns at one and a half, three and seven |
| Ticks.StepNearIdeal | runtime/v1/charts/scales.js:49-58 | the chosen step is between two thirds and five thirds of the ideal one |
| Ticks.Brackets | runtime/v1/charts/scales.js:59-60 | floor and ceiling give the multiples just outside the interval |
| Ticks.CountBounds | runtime/v1/charts/scales.js:49-64 | the number of ticks is near the target, for every interval and target |
| Ticks.YScaleFromValues | runtime/v1/panels/chart-helpers.js:99-105 | every value and zero lands between 0 and the plot height, larger values strictly higher up, with 4 to 10 ticks unless all values are zero |
| Ticks.ScaleIsAffine | runtime/v1/charts/scales.js:13-27 | a scale maps the ends of its domain to the ends of its range and evenly between; a domain of one point goes to the middle |
| Alphabets.SpacesAre | runtime/v1/core/interpolate.js:14-14 | white space is five characters to the SQL lexer and twenty-five to JavaScript, listed |
| Alphabets.WordsAre | runtime/v1/core/interpolate.js:14-14 | words start with a letter or an underscore and go on with digits too, in SQL with dollar signs as well |
| Alphabets.UpperIs | anon/internal/sqllex/sqllex.go:382-382 | upper-casing maps the 26 small letters to the large ones and nothing else |

## Left out

- The keyword, type-keyword and safe-literal lists are parameters; the theorems hold for any lists.
- HMAC-SHA256 itself and the value seeds: any function to 64 hex digits stands for it.
- `Map` and `Pairs` of the identifier map, which only read the map built here.
- Identifiers and texts are sequences of characters; invalid UTF-8 and the case folding of non-ASCII letters are not modelled, and string lengths count characters.
- The custom attribute keys and hot names that `observe` queries are part of its input; an attribute scan that fails counts as one that found no keys; the error returns of `clusterVocab` end the run before `Build`.
- ClickHouse is a map from objects to owners; the SQL text of statements, retries, population of tables and errors other than a crash are not modelled. `cleanup` writes names between backticks without doubling embedded ones, which the model takes as the names meant.
- Foreign users are assumed not to take registered names nor names a run has checked but not yet registered; database names hold no dot (`Ownership.DottedNamesCollide` shows why).
- The `include-meta` option of `cleanup`, run manifests and `LatestCompleteRun`.
- ParamLaws.AcceptsIffValid: parameters are looked up in a plain JavaScript object, so one named like an inherited property (`constructor`, `toString`) is found without being declared; the model takes it as undeclared. The same holds for a panel's source in `Dash.Src`.
- DashReplay.AgreementIff: the converse is about panels fed by a query panel; the rows of a source that is itself fed are what transforms make of an answer, so which rows it may show depends on them. That a panel which was not overtaken agrees holds for every source (`DashOvertaken.NotOvertakenAgrees`).
- Effective panel ids are distinct; two panels with one id would share a state object.
- Re-runs issued from inside a `panel:loaded` listener or a transform, `state.refresh` (which bumps the epoch without a new deferred), and the "Auth expired" answer (after which the shell reloads the page).
- Parameter changes before `boot` has begun, when no panel state exists yet.
- Rendering, elapsed times, the ledger and the `params` event; whether a renderer throws is part of the answer event.
- A transform sees all parameters, but is re-run only when its source is: its rows are those for the parameters of its own last run, which is what `DashLaws.AgreementOverAllRuns` says.
- `DashLaws.AgreementOverAllRuns` promises a query panel the present parameters only when the text search finds every name in its query; `ParamLaws.SearchSeesIff` says which spellings it finds, `DashStale.NeverStaleIff` that no other query has that promise.
- `Number()`, `String()` and custom patterns of the JavaScript engine are parameters; non-finite numbers and `undefined` are modelled.
- Floating point: `niceTicks` and the scales are over exact reals, without `toFixed(12)`, non-finite or reversed ends or a negative target; the power of ten is the one with mag <= step < 10 mag.
- `bandScale`, `pickXTicks`, `resolveSeries`, the panels and all other browser code, OAuth and routing.
- The wide and narrow re-tokenization of masking plans, classification tables, archetypes, materialized views and grants.
- `sort.Strings` is an insertion sort here; `ArrayCell.SortedUnique` makes the result the same.
