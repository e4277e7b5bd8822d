# dfe-schemas, verified

dfe-schemas turns a manifest of definitions into ClickHouse DDL and keeps a ledger of what it applied. This
project models the parts of it whose correctness is not visible from one function, and proves what the
repository relies on them for.

| Part | Files | The question |
|---|---|---|
| Text | `text`, `scan`, `words`, `order`, `wrappers` | Whitespace, runs, letters, line breaks and string order as Python has them |
| Checksum text | `lexer`, `collapse` | Is collapsing whitespace outside quotes a canonical form? |
| Platform tokens | `checksum`, `seams`, `platforms`, `databases`, `engines`, `ledger` | Is the hashed text the same on ClickHouse Cloud and self-hosted, and does it still tell tables apart? |
| Rendered table | `literals`, `atoms`, `pieces`, `rendered`, `layout` | Which line of a CREATE TABLE stands where, and what does it say? |
| One-DDL gate | `gate`, `patterns`, `comments`, `searches`, `reading`, `verdict`, `statements`, `misreads` | What does the gate say of a rendered table or database, and when does a comment or a name mislead it? |
| JSON settings | `jsontypes`, `realign` | Does the textual search find exactly the JSON columns; do moved tables converge? |
| Roles | `roles` | From any server state, what do a role's statements leave behind? |
| Daily rollup | `rollup` | Does the incremental window agree with recomputing everything? |
| Schema generator | `profile`, `typing`, `versions`, `entries` | Are the types sound, the profile independent of order, published versions immutable, printed columns readable? |
| Annotator | `annotator`, `spacing` | Does splicing a growing list terminate, lose nothing, and settle at once? |
| Variant file | `variants`, `markers` | Does the marker loop read what the printer writes, and nothing else? |
| Manifest | `manifest` | Does the accumulating loop equal a closed predicate, and what does passing it promise? |
| Platform probe | `probe` | One engine query, one decision, whatever the client answers |

Regular expressions are modelled one by one as scanners over the rest of the text, with the expression's own
greediness and backtracking: a doubled quote that leads nowhere is given back, `\s*` gives a space back to
`[^,\n]+`, `[A-Za-z]*MergeTree` reaches for the last occurrence. Where the source loops, a method loops and is
proved against a specification; where it splices a list or caches a field, a class does.

Methods: `Collapse.CollapseWhitespace`, `Checksum.Normalised`, `Gate.DdlViolations`,
`JsonTypes.JsonTableSettings`, `Roles.RenderRoleEntry`, `Profile.Profile`, `Profile.KeyStats.Observe`,
`Versions.ExistingVersions`, `Versions.Generate`, `Annotator.LineList`, `Annotator.AnnotateText`,
`Variants.LoadVariantBlocks`, `Manifest.Check`, `Probe.PlatformProbe`. What the specifications promise is
proved beside them.

## What the proofs found

- A line comment loses the newline that ends it, so the collapsed text can be scanned another way. Texts of one
  shape collapse to one text always (`Collapse.OneShapeOneText`), but texts of two shapes can too
  (`Collapse.TwoShapesOneText`); scanning finds the same spans exactly where only whitespace follows a line
  comment (`Collapse.CollapsedRelexes`), and `Collapse.CollapseTwice` says exactly which texts a second collapse
  changes (`Collapse.LineCommentBreaksCollapse` is one).
- Ten minutes of overlap are exact: the window can be relied on if and only if a minute row's delay and a
  refresh's length stay under them together (`Rollup.TimelyIsReliable`). From there on
  `Rollup.TenMinutesIsTooLate` builds a run that loses a day.
- A schema's version and date read back exactly when neither needs an escape (`Versions.VersionsReadBack`), and
  a version that is empty or holds a quote protects its file from nothing
  (`Versions.UnreadableVersionIsRewritten`). `Versions.RerunChangesNothing` says exactly when running a job again
  is a no-op; a description with a carriage return in it is one thing that keeps it from being one
  (`Versions.DescriptionNeverSettles`), for it is written as it is and read back as a newline.
- The row-key guard sees the element type of an array, so a key whose values are lists of strings passes
  (`Typing.RowKeyMayBeAnArray`).
- Grants are replaced, but no role statement takes anything else off a server: a role keeps the profile of an
  entry that no longer declares settings, a quota that is declared no more stays in force, and so do the limits of
  an interval that was changed and, where an ALTER keeps what it does not name, each limit that was dropped
  (`Roles.DroppedLimitStays`). `Roles.ProfileIsDeclared`, `Roles.SettingsAreDeclared` and `Roles.QuotaIsDeclared`
  say exactly when profile, settings and quota end as the entry declares them.
- An element named JSON is taken for a JSON column (`JsonTypes.ElementsMislead`).
- A comment whose last line looks like a comment line takes its own closing quote away from the gate, which then
  reads the comment's text as part of the statement. `Reading.LastLiteralDecides` is the exact condition for any
  statement's last literal, `Reading.TableIsReadWhole` for a table's comment. A table's comment changes what the
  gate says exactly when what is left of it says ON CLUSTER (`Verdict.TablePasses`); `Misreads.CommentMisleadsHere`
  and, with a column's comment, `Misreads.ColumnCommentMisleads` are rendered tables of which that is said.
- A quoted name may hold `=`, so a column called `ENGINE=x` is taken for an engine (`Misreads.NameMisleads`).
  `Verdict.CleanVerdict` says exactly which names draw a problem: `ENGINE=Replicated` draws none.
- `_COLUMN_NAME` accepts a trailing line break, and `Versions.IsEntry` keeps that.

## Model

| member | source | states |
|---|---|---|
| Collapse.CollapseWhitespace | dfe_schemas/render.py:263-274 | The `pieces`/`end` loop computes the declarative collapse: tokens outside quotes squashed, literals as written, the ends stripped |
| Collapse.Relex | dfe_schemas/render.py:153-160 | Lexing the collapsed text gives the collapsed tokens if and only if nothing follows a line comment, for every text |
| Collapse.TrimFirst | dfe_schemas/render.py:272-274 | Stripping the ends before the collapse gives the same text as stripping them after it |
| Collapse.CollapsedRelexes | dfe_schemas/render.py:153-160 | The output lexes to the shape of the input exactly when only whitespace follows a line comment |
| Collapse.QuotedSpansSurvive | dfe_schemas/render.py:245-250 | The quoted spans come through unchanged and in order |
| Collapse.CollapsedIsCanonical | dfe_schemas/render.py:263-274 | Where only whitespace follows a line comment, two texts collapse to one text if and only if they agree up to whitespace runs outside quotes and at the ends |
| Collapse.OneShapeOneText | dfe_schemas/render.py:263-274 | Texts that agree up to whitespace runs outside quotes and at the ends collapse to one text, comments or not |
| Collapse.TwoShapesOneText | dfe_schemas/render.py:153-160 | Two texts that collapse to one though one goes on behind its line comment and the other does not |
| Collapse.CollapseTwice | dfe_schemas/render.py:263-274 | A second collapse changes nothing if and only if, from the first line comment on that something follows, no such comment ends in whitespace and no literal holds whitespace but single spaces |
| Collapse.LineCommentBreaksCollapse | dfe_schemas/render.py:153-160 | A text with a line comment in it that a second collapse changes |
| Checksum.Normalised | dfe_schemas/render.py:245-260 | The loop of `checksum` hashes, for each statement, that statement with its platform tokens out and its whitespace collapsed |
| Checksum.SubSplits | dfe_schemas/render.py:137-147 | A substitution of a joined text is the substitutions of its parts where no match of the first depends on the second |
| Seams.ClusterSplits | dfe_schemas/render.py:137 | No ON CLUSTER match reaches across a whitespace boundary behind a character it cannot contain |
| Seams.EngineSplitsAtNumber | dfe_schemas/render.py:142 | An assignment of a number is never taken for an engine, and splits the text for the engine rule |
| Seams.SettingsSplitAtNumber | dfe_schemas/render.py:145-147 | No settings match that starts before the first setting's value depends on the settings after it |
| Seams.SettingsSub | dfe_schemas/render.py:145-147 | Of a settings list the normaliser drops exactly the ones whose names it knows, and keeps the rest in order |
| Platforms.NeutralTable | dfe_schemas/render.py:245-260 | The normalised text of any CREATE TABLE, piece by piece: the granularity stays, platform settings go, other settings stay |
| Platforms.SettingsTellTablesApart | dfe_schemas/render.py:245-260 | Tables that differ only in settings normalise alike if and only if they agree on every setting that is not platform-only |
| Platforms.TableIsPlatformBlind | dfe_schemas/deploy_defaults.py:65-82 | For any head, comment and per-platform settings maps, the hashed text is the same on both platforms |
| Platforms.SpellingIsBlind | dfe_schemas/render.py:140-142 | `ReplicatedXMergeTree`, `XMergeTree` and `XMergeTree()` are hashed as one text |
| Platforms.MergedIs | dfe_schemas/deploy_defaults.py:79-82 | A JSON setting has the value that the platform gives it, else the one every platform has, and the common names come first |
| Statements.DatabaseIsWritten | dfe_schemas/sql/platform.sql:12-20 | The lines of each platform's CREATE DATABASE, word for word, for every bare name |
| Databases.DatabaseNeutral | dfe_schemas/sql/platform.sql:12-20 | Both CREATE DATABASE statements normalise to the bare one, for every bare name |
| Databases.DatabaseIsPlatformBlind | dfe_schemas/clickhouse.py:189-199 | The CREATE DATABASE of each platform is hashed as the same text |
| Engines.EngineReadsBack | dfe_schemas/clickhouse.py:115-131 | A variant and its parameters are read back from how they are written, and empty brackets count as none |
| Engines.ClauseIsPrefixed | dfe_schemas/clickhouse.py:134-151 | The clause is the declared engine behind `Replicated`, and is refused exactly for a prefix the platform adds |
| Ledger.RenderedIsTable | dfe_schemas/render.py:593-644 | The rendered statement, whose text `Layout.TableIsWritten` gives line by line, has the form the checksum theorems speak of |
| Ledger.RenderedIsPlatformBlind | dfe_schemas/render.py:593-644 | One table definition is accepted and hashed alike on every platform, JSON columns or not |
| Ledger.OnPlatformIsClean | dfe_schemas/render.py:627-639 | The settings that a platform adds change nothing of what the gate says |
| Ledger.RenderedSpellingIsBlind | dfe_schemas/render.py:140-142 | A rendered table is hashed as if its engine had been spelled without the prefix, or with empty brackets |
| Literals.LiteralIs | dfe_schemas/render.py:230-237 | The two replacements together escape each character by itself |
| Literals.LiteralReads | dfe_schemas/render.py:230-237 | A C-style reader of a written literal returns its text and stops at its end, for every text |
| Literals.LiteralIsOneSpan | dfe_schemas/render.py:150-159 | Both scanners take the literal as one span: the gate's always, the checksum's if and only if no quote that closes again follows |
| Literals.QuotedNameIsOneSpan | dfe_schemas/loader.py:462-474 | An accepted quoted name is one span and holds no quote or whitespace |
| Gate.DdlViolations | dfe_schemas/render.py:190-227 | The list holds each problem of the gated text once, and nothing else, each described by the statement's head; `Patterns.ProblemsAreBreaches` says which these are |
| Patterns.ProblemsAreBreaches | dfe_schemas/render.py:190-227 | The problems are the breaches of the five rules as the expressions' own matches tell them: what the statement creates, the leftmost engine named, any ON CLUSTER and the leftmost Keeper path |
| Patterns.KindIsCreated | dfe_schemas/render.py:168-171 | The kind read is a given one if and only if the text is `CREATE`, perhaps `OR REPLACE`, and the kind's words, in any letter case and with any whitespace, up to the end of a word |
| Patterns.FindsClusterIs | dfe_schemas/render.py:161 | ON CLUSTER is found if and only if the two words stand somewhere, whole, with whitespace between them |
| Patterns.FirstEngineIs | dfe_schemas/render.py:162 | The engine read is the whole name assigned at the leftmost `ENGINE =` that assigns a name |
| Patterns.NoEngineIs | dfe_schemas/render.py:162 | No engine is read if and only if none is assigned anywhere |
| Patterns.FirstExplicitIs | dfe_schemas/render.py:165-167 | A Keeper path is read exactly at the leftmost assignment of a replicated MergeTree whose arguments open with two literals |
| Statements.DatabasesPass | dfe_schemas/clickhouse.py:189-199 | The CREATE DATABASE of either platform draws no problem, for every bare name |
| Statements.DatabaseVerdict | dfe_schemas/render.py:207-212 | With any other engine in it the self-hosted one draws exactly the ON CLUSTER report, and for a replicated MergeTree the Keeper path too |
| Statements.NamedEngineVerdict | dfe_schemas/render.py:213-224 | A table may name a replicated engine or `Merge`, a view's inner table a replicated one; any other is reported by its name, and nothing else is |
| Statements.NoEngineVerdict | dfe_schemas/render.py:213-215 | A table that assigns nothing is reported for naming no engine, and for nothing else |
| Statements.TableHead | dfe_schemas/render.py:201 | A problem of a rendered table is reported under its first line, database and name in quotes |
| Atoms.GateReadsSkeleton | dfe_schemas/render.py:199-200 | Dropping comment lines and blanking literals gives the same text for a statement and for its skeleton |
| Atoms.LiteralsDoNotMatter | dfe_schemas/render.py:199-227 | Statements that differ only inside literals get the same verdict, word for word |
| Comments.CommentIsSteady | dfe_schemas/render.py:199-200 | With its dashed lines dropped the literal of a text still ends at its own quote, if and only if the text is one line or its last line does not begin with two dashes |
| Comments.GateReadsAll | dfe_schemas/render.py:199-200 | A statement without comment lines is read whole, with its literals emptied, whatever line breaks these hold, as long as each keeps its end |
| Searches.ClusterSeam | dfe_schemas/render.py:161 | ON CLUSTER is found in a joined text only where it is in one of the parts, unless the joint splits it |
| Searches.EngineSkips | dfe_schemas/render.py:162-167 | The engine searches pass over any text without `ENGINE =` |
| Searches.NamePasses | dfe_schemas/render.py:162-167 | Of a quoted name the search reads the engine that the name names by itself, and otherwise goes on behind its closing quote |
| Searches.SettledPasses | dfe_schemas/render.py:162-167 | The engine searches pass over a clause that assigns nothing to ENGINE, and over one that assigns a number, be it to ENGINE |
| Pieces.NoClusterInPieces | dfe_schemas/render.py:601-644 | Clauses without ON CLUSTER behind the renderer's words make a statement without it |
| Pieces.ClaimInPieces | dfe_schemas/render.py:601-644 | The first engine found in clauses behind the renderer's words is the one that the first of them names by itself |
| Rendered.EngineIsClause | dfe_schemas/render.py:604 | The engine stands in the statement as the clause of its variant and parameters |
| Rendered.CommentIsLiteral | dfe_schemas/render.py:675-676 | A comment is written as the escaped literal of its text |
| Layout.TableIsWritten | dfe_schemas/render.py:593-644 | The text of every accepted table: its lines, from the head to the comment, joined |
| Layout.LinesReadBack | dfe_schemas/render.py:593-644 | Where no part of the table holds a line break, cutting the text into lines gives those lines back |
| Layout.HeadStands | dfe_schemas/render.py:601-604 | The first line names database and table, brackets stand around the column list, and the engine's clause behind it |
| Layout.ColumnStands | dfe_schemas/render.py:658-681 | Column `i` stands on line `i` of the list: its name, its type, its value under DEFAULT, MATERIALIZED or ALIAS, its comment, its codec, and a comma where another line follows |
| Layout.IndexStands | dfe_schemas/render.py:646-656 | The indexes stand behind the columns, one to a line |
| Layout.OrderStands | dfe_schemas/render.py:606-619 | Then the partition, and the key: PRIMARY KEY and ORDER BY over the same names, the raw ORDER BY, or `tuple()` |
| Layout.KeyIs | dfe_schemas/render.py:616-619 | The key lists its names in quotes, in their order, commas between |
| Layout.TtlStands | dfe_schemas/render.py:776-779 | Then one TTL to a line |
| Layout.SettingsStand | dfe_schemas/render.py:627-639 | Then the settings, one to a line behind the index granularity |
| Layout.LastLinesStand | dfe_schemas/render.py:627-644 | The index granularity comes first, and the comment is the last line of all |
| Reading.StatementReads | dfe_schemas/render.py:199-200 | The gate reads a rendered CREATE TABLE, settings and all, as its own text with the literals emptied |
| Reading.LastLiteralDecides | dfe_schemas/render.py:199-200 | A statement whose last literal ends its line is read whole if and only if that literal's text is one line or its last line does not begin with two dashes |
| Reading.TableIsReadWhole | dfe_schemas/render.py:199-200 | The gate reads a rendered table whole if and only if its comment is one line or its last line does not begin with two dashes |
| Reading.CommentSpills | dfe_schemas/render.py:199-200 | Otherwise it reads the comment's other lines, escaped, as the end of the statement |
| Verdict.ReadsArguments | dfe_schemas/render.py:163-167 | At the renderer's engine the Keeper-path search matches exactly when the parameters open with two literals |
| Verdict.TablePasses | dfe_schemas/render.py:190-227 | The gate finds three things in a rendered table and nothing else, whatever its comment: engine arguments that open with two literals; a database, table or column name that is the first to name an engine and names one a table may not take; and an ON CLUSTER in what is left of a comment that loses its end |
| Verdict.CleanVerdict | dfe_schemas/render.py:190-227 | No problem is found if and only if the arguments do not open with two literals, the first engine read before the renderer's own is none, begins with `Replicated` or is `Merge`, and the comment keeps its end or what is left of it says no ON CLUSTER |
| Verdict.CommentsDoNotMatter | dfe_schemas/render.py:658-681 | Rewording comments of one line each moves no verdict, whatever else the table holds |
| Misreads.CommentMisleads | dfe_schemas/render.py:207-212 | Any table with one such comment is said to carry ON CLUSTER, though nothing but the comment says so |
| Misreads.CommentMisleadsHere | dfe_schemas/render.py:207-212 | A table that the renderer accepts and of which that is said |
| Misreads.ColumnCommentMisleads | dfe_schemas/render.py:207-212 | A table that the renderer accepts and of which that is said because of a column's comment |
| Misreads.NameMisleads | dfe_schemas/render.py:213-217 | A table that the renderer accepts, with a column called `ENGINE=x`, is said to have the engine x |
| Misreads.NameMayNameAReplica | dfe_schemas/render.py:213-217 | With a column called `ENGINE=Replicated` it draws no problem |
| JsonTypes.JsonTableSettings | dfe_schemas/deploy_defaults.py:65-82 | The merged settings when some column's text names JSON, and none otherwise |
| JsonTypes.TextNamesJson | dfe_schemas/deploy_defaults.py:61-62 | The text of a type tree names JSON if and only if the tree is or wraps JSON, or names an element with the word |
| JsonTypes.PathsKeepJson | dfe_schemas/loader.py:438-447 | A limit on dynamic paths neither makes a JSON column nor hides one |
| JsonTypes.SettingsFollowTypes | dfe_schemas/deploy_defaults.py:79-82 | A table gets JSON settings exactly when a column is or wraps JSON, where no element's name holds the word |
| JsonTypes.ElementsMislead | dfe_schemas/deploy_defaults.py:61-62 | A tuple with an element called json, and no JSON in it, is taken for a JSON column |
| Realign.RealignReaches | dfe_schemas/clickhouse.py:257-277 | Applying the statements gives the wanted settings over the live ones no platform manages |
| Realign.NothingLeftToDo | dfe_schemas/clickhouse.py:257-277 | The realignment is empty exactly on an aligned table, and after it has been applied |
| Realign.MovesConverge | dfe_schemas/clickhouse.py:220-226 | After any sequence of platform moves, the settings depend on the last platform and the operator's own alone |
| Roles.RenderRoleEntry | dfe_schemas/render.py:884-937 | The method emits the specified statement list |
| Roles.RoleConverges | dfe_schemas/render.py:884-949 | From any server state every statement is accepted, none naming what is not there, and the list ends in the specified state, unless the entry's quota limits nothing; then the list is refused |
| Roles.RoleHoldsCatalogue | dfe_schemas/render.py:884-949 | Where it is accepted, the role holds exactly the catalogue's grants, its settings and limits have the catalogue's values, and no other role, profile or quota changes |
| Roles.RoleHolds | dfe_schemas/render.py:925-931 | A privilege is held if and only if the entry declares it, or it reads a listed system table and the entry may look at them, the database put in for its placeholder |
| Roles.NoPlaceholder | dfe_schemas/render.py:929-932 | A privilege without a brace is granted as it is declared |
| Roles.PlaceholderReplaced | dfe_schemas/render.py:929-932 | The first placeholder becomes the database, and the rest of the privilege is read on |
| Roles.RoleRunTwice | dfe_schemas/render.py:884-949 | A second run changes nothing |
| Roles.RoleNeverBelowList | dfe_schemas/render.py:939-949 | On a re-run the role holds its whole list after every single statement |
| Roles.QuotaNeedsRole | dfe_schemas/render.py:897-925 | Creating the quota before the role is refused |
| Roles.ProfileIsDeclared | dfe_schemas/render.py:905-937 | The role ends with the profile the entry declares, or none, if and only if the entry declares settings or the role had no profile before |
| Roles.SettingsAreDeclared | dfe_schemas/render.py:907-911 | The profile ends with exactly the declared settings if and only if it held no others before, or an ALTER drops what it does not name |
| Roles.QuotaIsDeclared | dfe_schemas/render.py:912-923 | A quota no longer declared stays as it was, and the declared one ends with exactly the declared interval and limits if and only if it was there for no other interval and, where an ALTER keeps what it does not name, with no other limit |
| Roles.DroppedLimitStays | dfe_schemas/render.py:915-923 | A server on which a limit the entry no longer names stays in force |
| Roles.TenantConverges | dfe_schemas/render.py:951-966 | From any state the tenant role ends with exactly the listed system grants and nothing else changes; a second run has no effect |
| Rollup.StepInv | views/usage_daily_recent.sql:7-27 | Every event keeps the invariant that ties the daily rows to the minutes stored |
| Rollup.RunInv | views/usage_daily_recent.sql:7-27 | The invariant holds in every state of every run |
| Rollup.RefreshIsFullRecompute | views/usage_daily_recent.sql:9-27 | After every refresh of every run, each day from five back to today equals the aggregate of the minutes the refresh read |
| Rollup.StaleDayIsPending | views/usage_daily_recent.sql:14-21 | Between refreshes, a day of the window that is not exact is one the next refresh reaches |
| Rollup.QuietRefreshIsExact | views/usage_daily_recent.sql:9-27 | A refresh during which no minute lands leaves the window exact for what is stored |
| Rollup.TimelyIsReliable | views/usage_daily_recent.sql:19-20 | Every such refresh of every run leaves the window exact if and only if delay and refresh length stay under ten minutes together |
| Rollup.TenMinutesIsTooLate | views/usage_daily_recent.sql:19-20 | For any delay and refresh length that reach ten minutes together, a run that leaves a day of the window wrong after a refresh during which nothing lands |
| Profile.KeyStats.Observe | scripts/generate_meta_schemas.py:229-252 | Counting one value merges its one-value statistics into the fields |
| Profile.Profile | scripts/generate_meta_schemas.py:225-254 | The nested loops leave, for each key, the fold of its column |
| Profile.ProfileOfConcat | scripts/generate_meta_schemas.py:225-254 | The profile of two dumps in a row is the merge of their profiles |
| Profile.ProfileOfShuffle | scripts/generate_meta_schemas.py:225-254 | No order of the rows shows in the profile |
| Profile.FoldMeans | scripts/generate_meta_schemas.py:126-141 | What each statistic says about the values of its column |
| Profile.FoldCounts | scripts/generate_meta_schemas.py:126-141 | Distinct values, nulls, empty strings and zeros are counted as the column holds them |
| Typing.ShapeIsRule | scripts/generate_meta_schemas.py:257-305 | The type read off the statistics is the one the documented rules give the values |
| Typing.TypeIsSound | scripts/generate_meta_schemas.py:312-395 | Every non-null value seen under a key inhabits the derived type, array elements included |
| Typing.NullableIsExact | scripts/generate_meta_schemas.py:376-382 | A column is nullable exactly when some row lacks or nulls the key and the type is neither json nor an array |
| Typing.UseIsRule | scripts/generate_meta_schemas.py:308-395 | A column's use case, low cardinality and expression follow from its type, how many different values it holds, and whether it is the row key |
| Typing.RowKeyAccepted | scripts/generate_meta_schemas.py:365-369 | The row-key guard passes exactly when the type it looks at is string or uuid |
| Typing.RowKeyIsScalar | scripts/generate_meta_schemas.py:365-369 | An accepted row key is a scalar column exactly when its values are not all lists |
| Typing.RowKeyMayBeAnArray | scripts/generate_meta_schemas.py:365-369 | An array of strings passes the row-key guard |
| Typing.StoreColumns | scripts/generate_meta_schemas.py:398-438 | The columns are the union of the keys once each, row key first and the rest sorted, each with the type its values have |
| Typing.StoreErrors | scripts/generate_meta_schemas.py:408-422 | A dump is refused for having no rows, no row key, names that no column can have, names that are taken, or a row key of another type, in that order and for nothing else |
| Typing.StoreOfShuffle | scripts/generate_meta_schemas.py:398-438 | No order of rows shows in the derived columns or the error |
| Versions.ExistingVersions | scripts/generate_meta_schemas.py:498-508 | The loop pairs each version found with the date at its place |
| Versions.ReadAsWritten | scripts/generate_meta_schemas.py:502 | A file is read as the text that was written exactly when it holds no carriage return |
| Versions.VersionsReadBack | scripts/generate_meta_schemas.py:441-508 | A generated file is read as its one version and date if and only if both are plain: not empty, printable ASCII, no quote or backslash |
| Versions.HeldOfRender | scripts/generate_meta_schemas.py:92-93 | What a generated file is read as, for every version and date |
| Versions.Generate | scripts/generate_meta_schemas.py:618-677 | The loop over the stores leaves the files of the specified runs and counts the changed and the failed |
| Versions.PublishedVersionsStay | scripts/generate_meta_schemas.py:633-655 | A file that holds a version is never rewritten, over any sequence of runs |
| Versions.GeneratedIsPublished | scripts/generate_meta_schemas.py:633-655 | A generated file holds a version exactly when the version is neither empty nor holds a quote |
| Versions.RerunChangesNothing | scripts/generate_meta_schemas.py:640-663 | Running a job again with no date given finds its file unchanged if and only if its prose holds no carriage return, the date it printed needs no escape, and the version needs none either, or is not read back at all and the day is the printed one |
| Versions.ReturnNeverSettles | scripts/generate_meta_schemas.py:649-655 | A job with a carriage return in its prose never finds its file unchanged |
| Versions.DescriptionNeverSettles | scripts/generate_meta_schemas.py:649-655 | A new store with such a description is written, and the next run on the same day does not find it unchanged |
| Versions.UnreadableVersionIsRewritten | scripts/generate_meta_schemas.py:633-677 | A file whose version cannot be read back is rewritten by a changed export |
| Entries.DumpedReads | scripts/generate_meta_schemas.py:441-443 | A JSON reader gives every dumped text back, surrogate pairs included |
| Entries.EntryReads | scripts/generate_meta_schemas.py:481-494 | A printed column is read back field by field: name, type, override, attributes, use case, expression, comment and codec |
| Entries.ColumnsRead | scripts/generate_meta_schemas.py:478-494 | The printed column list is read back as the columns it was printed from, in order |
| Entries.FileReads | scripts/generate_meta_schemas.py:458-495 | A generated file is read back whole: version, resource type, date, type, summary, and every column field by field |
| Entries.JobPrints | scripts/generate_meta_schemas.py:640-648 | The date given is printed, else the one the file holds for the version, else today's |
| Entries.JobDecides | scripts/generate_meta_schemas.py:633-677 | A job fails exactly where the file holds another version, or this one with another text; it leaves a file that reads as it would be printed alone, and a dry run writes nothing |
| Annotator.LineList.EnsureResourceType | scripts/annotate_meta_schemas.py:60-77 | The scans and the insertion leave the lines and the answer that `Annotator.WithResourceTypeIs` characterises, and change no line where `current:` is missing |
| Annotator.WithResourceTypeIs | scripts/annotate_meta_schemas.py:60-77 | Before the first `versions:`, a `resource_type:` leaves the file alone; else one line is gained right behind the first `current:`, and taking it out gives the given lines back; with neither the file is refused |
| Annotator.LineList.ColumnBlockEnd | scripts/annotate_meta_schemas.py:80-92 | The block ends where the next column, section or version begins; a line at column 0 does not end it |
| Annotator.LineList.AnnotateColumns | scripts/annotate_meta_schemas.py:95-130 | The loop terminates while it grows the list, leaves the specified lines and counts the blocks that lacked one |
| Annotator.AnnotateText | scripts/annotate_meta_schemas.py:133-145 | The whole function computes the specified report |
| Annotator.AnnotatedIsWoven | scripts/annotate_meta_schemas.py:95-130 | The lines that are not blank are the given ones in order, with one line inserted for each block that lacked it |
| Annotator.AnnotatedAgain | scripts/annotate_meta_schemas.py:95-130 | Scanning the result finds the same blocks, each with its line, and changes nothing |
| Annotator.NonBlankMended | scripts/annotate_meta_schemas.py:121-126 | A lacking block gains its line behind its last line that is not blank, and loses none |
| Annotator.NormalisedBlanks | scripts/annotate_meta_schemas.py:31-57 | The spacing rules add and remove blank lines only |
| Spacing.NormalisedIsRespaced | scripts/annotate_meta_schemas.py:31-57 | The four rewrites, one after the other, are one pass over the lines |
| Spacing.NormalisedIsSpaced | scripts/annotate_meta_schemas.py:31-57 | Afterwards no blank line is left where one goes and none lacks where one comes, and nothing changes if and only if that was so before |
| Spacing.IndentDecides | scripts/annotate_meta_schemas.py:27-28 | Versions, their keys, columns and fields are told by two, four, six and eight spaces |
| Annotator.AnnotatedFile | scripts/annotate_meta_schemas.py:133-145 | A changed file holds every line of the given one that is not blank, in order, one header line more where it was lacking, one line more for each column that lacked its own, as many as are reported, and no other |
| Annotator.ChangedExactly | scripts/annotate_meta_schemas.py:133-145 | A file is changed exactly where the header key or a column's line is lacking, and is returned as it was otherwise |
| Annotator.AnnotateTwice | scripts/annotate_meta_schemas.py:133-145 | Annotating an annotated file returns it unchanged, with nothing counted |
| Variants.Loader.Close | dfe_schemas/variants.py:108-116 | The closure files the pending body under the open marker, or refuses a repeat or text before any marker |
| Variants.LoadVariantBlocks | dfe_schemas/variants.py:91-135 | The marker loop gives what the declarative reading gives, error by error |
| Variants.CheckRectangular | dfe_schemas/variants.py:130-134 | The first block, by name, that leaves a variant out is named with what it leaves out; none exactly when the file is rectangular |
| Markers.MarkerIs | dfe_schemas/variants.py:37-39 | A line opens a block if and only if, stripped, it is the dashes, the word and two names, with any whitespace between |
| Variants.EveryLineLandsOnce | dfe_schemas/variants.py:86-135 | The blocks of an accepted file are its entries, each once, and the content of the file is the content of their bodies, in order and once |
| Variants.PrintedLoads | dfe_schemas/variants.py:86-135 | Any listing of a rectangular set of canonical blocks loads as the set and as nothing else |
| Variants.AcceptedPrints | dfe_schemas/variants.py:86-135 | The entries of an accepted file list its blocks and are printable, and what they print as loads as the blocks and as nothing else |
| Manifest.Check | dfe_schemas/manifest.py:138-183 | The loop names every fault of every object and nothing else, and none if and only if the manifest is well formed |
| Manifest.ChainDescends | dfe_schemas/manifest.py:165-171 | In a well-formed manifest every chain of dependencies leads towards the front, so none comes back |
| Manifest.CreateNeverMissesOne | dfe_schemas/manifest.py:138-183 | Any dependency-closed choice is created in list order without meeting a missing dependency |
| Manifest.DatabaseName | dfe_schemas/manifest.py:97-111 | The first database declared under the key decides, and an undeclared key is an error |
| Probe.PlatformProbe.Resolve | dfe_schemas/clickhouse.py:331-350 | The first call decides: an override, else the one engine query, Cloud for a first cell of one and more, else the host; every later call repeats the decision without a query |
| Probe.CascadeDecides | dfe_schemas/clickhouse.py:337-350 | Which layer decides, and what it says: an override, a count that was answered, a host that is not empty, or self-hosted |
| Probe.HostIsRead | dfe_schemas/clickhouse.py:156 | Every host is a name between whitespace and behind it dots |
| Probe.HostDecides | dfe_schemas/clickhouse.py:154-157 | A host is Cloud if and only if its name ends, in any letter case, in one of the two endpoints |
| Probe.PlatformProbe.RequireReplication | dfe_schemas/clickhouse.py:352-405 | The outcome and the queries asked are exactly the specified ones for whatever the client replies |
| Probe.PlatformProbe.RequireReplicatedAccess | dfe_schemas/clickhouse.py:407-422 | Access passes exactly when the first writable storage is the replicated one |
| Probe.RefusalNamesWhatIsMissing | dfe_schemas/clickhouse.py:371-403 | A refusal names Keeper, each undefined macro and an empty cluster where they are missing, and nothing else |
| Probe.AsksInOrder | dfe_schemas/clickhouse.py:367-411 | The queries come in this order, each only where the ones before it leave the verdict open |
| Probe.MacroMapIs | dfe_schemas/clickhouse.py:378-381 | A macro has the substitution of the last row that names it |
| Probe.FirstWritableIs | dfe_schemas/clickhouse.py:407-412 | Roles land in the first storage, by precedence, that takes any |
| Probe.PassesExactlyWhenConfigured | dfe_schemas/clickhouse.py:352-422 | When its queries succeed, the check passes exactly on Cloud or on a configured server |
| Probe.FailureNeverPasses | dfe_schemas/clickhouse.py:352-422 | No failing query lets an unconfigured server through |
| Probe.Drive | dfe_schemas/clickhouse.py:321-335 | Over any sequence of calls the engine query runs at most once and the platform and origin never change |

## Left out

- YAML and file reading, argument parsing, printing and exit codes: the models start from parsed records, rows and lines.
- SHA-256: equality and inequality are proved of the text it hashes.
- Gate.Head: the message of a problem is modelled as its kind, its engine and the head of the statement, not as prose.
- Words.IsWord: which characters beyond ASCII Unicode calls alphanumeric is an arbitrary set, but for the four letters that IGNORECASE takes for ASCII ones and for whitespace.
- Verdict.TablePasses: asks of a clause given by a definition that outside its literals it stay on one line and hold no ON CLUSTER and no `ENGINE =`, which the gate is there to find, and of an index line, a TTL line and a setting's name that it not begin with a dash.
- Verdict.CommentsDoNotMatter: asks for comments of one line each, because a table that holds other comment lines can lose a part of a longer comment with them; for tables with clean clauses `Verdict.TablePasses` covers the longer ones.
- Rendered.CleanColumn: asks that a column's comment keep its end; one that does not swallows whatever follows up to the next quote, so what the gate then says depends on every later comment, and only the case in which no literal follows is stated.
- Versions.HeldOfRender: asks that the prose of the header be one line each, as its options describe it, without a carriage return; a line end in it could hold a version line of its own. A carriage return in it is covered by `Versions.RerunChangesNothing`.
- Ledger.RenderedIsPlatformBlind: a setting's name holds no whitespace, `=` or comma and its value is a number, as every ClickHouse setting name and every value the platform file accepts is.
- Checksum.Neutral: the rules are not aware of literals, so the hashed text does not determine the statement; only the collapse is proved injective on shapes, and only settings are proved to show.
- Typing.DeriveStore: the wording of column comments and of notes is not modelled.
- Entries.EntryReads: asks, as `Entries.ColumnsRead` and `Entries.FileReads` do, of an attribute that it be neither empty nor hold a comma, as none of the generator's words is or does.
- Layout.ColumnStands: asks, as the other lemmas on single lines do, that no part of the table hold a line break; `Layout.TableIsWritten` gives the text of every other table.
- Statements.NamedEngineVerdict: speaks of a statement without literals or comment lines whose name is bare; `Patterns.ProblemsAreBreaches` speaks of every text.
- Typing.TypeIsSound: `_UUID`, `ipaddress` and `_RFC3339` are arbitrary predicates.
- Rollup.RefreshIsFullRecompute: the daily aggregate is an arbitrary function of a day's minutes, and the daily table's own 400-day TTL, far outside the window, does not occur.
- Roles.RoleConverges: statements are values, not text; the catalogue's database placeholder is `{db}`; whether an ALTER keeps what it does not name is a parameter, and everything is proved for both answers.
- Annotator.AnnotatedIsWoven: files are lists of lines and a flag for the final newline.
- Variants.LoadVariantBlocks: starts from the lines of the file; `select`, which looks a body up and fills `string.Template` placeholders, is not modelled.
- Versions.Generate: files are a map from store to text, and a dump that cannot be typed is a job without a schema.
- Probe.PlatformProbe.constructor: takes the platform an override pins, or none; how an override's text is read is not modelled.
- Rendered.CreateTable: use cases, sorting keys and TTL columns arrive as the clauses and names they resolve to; `Merge` tables, which store no rows, are not rendered.
- Views, materialised views, topics, compatibility profiles and usage constants: filtering, lookup and formatting, which would only add easy members.
- The live server: queries, engines and SQL evaluation appear as replies of an arbitrary client and as the semantics of role statements.
