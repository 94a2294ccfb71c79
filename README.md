# Sitecore audit handler — a verified model

This project models the audit handler of the Sitecore shared-source audit module. At start-up the handler subscribes to repository events. Each time an item is created, saved, deleted, copied, moved, renamed, re-sorted, has its template changed or is published, it decides whether the change is worth reporting. If it is, it appends human-readable lines to the audit log.

The class exists in two near-identical copies:

- `Audit.cs` is the older copy.
- `src/Sitecore.SharedSource.Audit/Pipelines/Initialize/Audit.cs` is the packaged copy.

The two copies differ only in ways that do not change behaviour:

- their namespaces and `using` lists;
- the names of private fields and locals (`_auditItemCreating` versus `AuditItemCreating`, `_isCAS` versus `IsCas`, `createdTS` versus `createdTs`, `itemID` versus `itemId`);
- `new EventHandler(handler.X)` (older) versus a method group `handler.X` (packaged) in `OnStart`;
- string formatting (`string.Format` versus interpolation, `ID.ToString()` versus `ID`);
- the older copy's private `GetWorkflowState` (Audit.cs:265-274), which nothing calls.

The rendered text is the same, so the behaviour is modelled once. Each row of the table below cites one copy. Up to `FindDifferences`, the matching code of the packaged copy sits eight lines after the older copy's (Audit.cs:254 is packaged :262). From `ShouldAudit` on, after `GetWorkflowState`, it sits three lines before it (Audit.cs:276 is packaged :273, Audit.cs:292 is :289, Audit.cs:417 is :414).

Modules, following the class's structure:

- `Strings`: the text primitives the handler relies on — ordinal `StartsWith`, ASCII lower-casing, character replacement, `String.IsNullOrWhiteSpace`, decimal rendering of integers.
- `Domain`: items with their fields, children and timestamps; templates and template change lists; publish contexts; the event kinds; the configuration switches read once at class load (`LoadConfig`).
- `Diff`: `FindDifferences`, the field diff of a save.
- `Rules`: the decisions taken before anything is written:
  - `ShouldAudit` (master database only);
  - the two-second rule for the summary `SAVE:` line;
  - the duplicate-name guard of item creation;
  - the copy/duplicate, real-rename and resolvable-move tests;
  - which switch each handler tests.
- `Formatter`: the text of every log line.
- `Trail`: for each event, the exact sequence of lines the handler writes, as a function of the configuration and payload, with the properties of those sequences.
- `Registry`: `OnStart`, which subscribes a handler method for each switched-on event kind on an event bus.
- `Handlers`: the handler object (`Audit`). It holds the configuration, the item formatter and the log. It has one method per event handler, and each method is proved to append exactly the `Trail` lines for its event. `OnItemCreating` also sets the creation's cancel flag and returns the alert text.

The save and publish handlers can raise an exception in the source. The model reports this as a `faulted` result, and no lines are written in that case:

- Save: the stored version is missing and the item being saved has a content (non-`__`) field.
- Publish: resolving the source of a publish that was not skipped throws.

Failures inside the skipped-publish branch are swallowed, as in the source.

`OnStart` subscribes only the handlers whose switch is on (Audit.cs:81-91). Each handler then tests a switch again on entry (Audit.cs:100, 155, 194, 217, 295, 330, 364, 392, 420), and the model includes that test. The template-change handler tests the item-deleting switch rather than its own (Audit.cs:420), so when subscribed it is silent whenever item deletions are not audited (`SwitchedOffIsSilent`, `TemplateIgnoresOwnSwitch`).

The field diff looks every field up by its name (Audit.cs:258-261). Which field Sitecore returns when two fields share a name is not part of this model, and the model resolves a name to the first field carrying it (`Domain.FieldIndex`). Whatever the resolution, the test depends on the name alone, so any two fields sharing a name are kept together or dropped together (`DuplicatedNameAllOrNothing`). `SingleFieldEdit` therefore requires unique field names. Under the model's first-field choice, with two fields named "X", an edit of the first is reported twice (`DuplicateNameReportedTwice`) and an edit of the second is not reported (`DuplicateNameEditMissed`).

Several source expressions are modelled by predicates, which have no contract of their own; the lemmas in the table state their behaviour:

- `Rules.ShouldAudit` and `Rules.IsMaster` (Audit.cs:276-279), stated by `IsMasterIgnoresCase`, `IsMasterExamples` and `OnlyMasterIsAudited`;
- `Rules.ShouldEmitHeader` (Audit.cs:232-235), stated by `HeaderExamples` and `SaveHeaderIff`;
- `Diff.Reported` (Audit.cs:261), stated by `FindDifferences` and `DiffFollowsFieldOrder`;
- `Rules.Collides` (Audit.cs:166), stated by `FirstCollision` and `GuardExamples`;
- `Rules.IsDuplicate`, `Rules.IsRealRename` and `Rules.MoveResolves` (Audit.cs:309, 373, 344), stated by `CopyLines`, `RenameLines` and `MoveLines`;
- `Registry.EventName` (Audit.cs:81-91), stated by `RegisteredIff` and `RegistrationsDistinct`;
- the `Formatter` line functions, whose texts the `Trail` lemmas state line by line.

## Model

| member | source | states |
|---|---|---|
| `Strings.Lower` | Audit.cs:278 | lower-casing keeps the length and the non-letters, maps each ASCII capital to its small letter, and leaves no ASCII capital |
| `Strings.ReplaceChar` | src/Sitecore.SharedSource.Audit/Pipelines/Initialize/Audit.cs:174 | `Replace(' ', '-')` changes exactly the spaces and keeps every other character in place |
| `Strings.IntTextRoundTrip` | src/Sitecore.SharedSource.Audit/Pipelines/Initialize/Audit.cs:400 | the decimal text of any integer, negative ones included, parses back to that integer |
| `Domain.FieldIndex` | Audit.cs:261 | the model's resolution of `Fields[name]`: the first field with that name, and nothing exactly when no field has the name |
| `Domain.LoadConfig` | src/Sitecore.SharedSource.Audit/Pipelines/Initialize/Audit.cs:26-60 | each switch is read from its own setting key ("Audit.Enabled", "PreventDuplicateItemNames", "Audit.ItemCreating" … "Audit.ItemPublished"): a setting that is present decides the switch, and a missing one leaves the default (on, except duplicate guard, sort order and publish); the website-is-master flag holds iff the website database name, lower-cased, is "master"; with no settings every switch has its default |
| `Diff.SelectNames` | Audit.cs:258-262 | a name is selected iff some field of the list has that name and the name passes the filter |
| `Diff.FindDifferences` | Audit.cs:254-263 | no reported name starts with "__"; a name is reported iff the new version has a field of that name, it is not a system name, its value differs from the stored version's, the stored version has the field, and both fields have the same ID |
| `Diff.DiffFollowsFieldOrder` | src/Sitecore.SharedSource.Audit/Pipelines/Initialize/Audit.cs:262-271 | the diff lists, in the new version's field order and without gaps, exactly the positions whose field passes the test: a subsequence of the new version's non-system names |
| `Diff.NoDiffWithoutChange` | src/Sitecore.SharedSource.Audit/Pipelines/Initialize/Audit.cs:266-269 | a version compared with itself yields no differences |
| `Diff.SingleFieldEdit` | Audit.cs:256-262 | with unique field names, two versions that differ only in the value of one content field yield exactly that field's name |
| `Diff.DuplicatedNameAllOrNothing` | Audit.cs:258-262 | the test reads a field's name only, so any two fields of the new version that share a name are both kept in the diff or both dropped |
| `Diff.DuplicateNameReportedTwice` | Audit.cs:256-262 | with two fields named "X", changing the first one's value yields the diff ["X", "X"] |
| `Diff.DuplicateNameEditMissed` | src/Sitecore.SharedSource.Audit/Pipelines/Initialize/Audit.cs:264-270 | with two fields named "X", changing only the second one's value yields an empty diff |
| `Rules.IsMasterIgnoresCase` | Audit.cs:276-279 | an item is audited iff its database name has six letters that lower-case to "master" |
| `Rules.IsMasterExamples` | src/Sitecore.SharedSource.Audit/Pipelines/Initialize/Audit.cs:273-276 | "master", "Master" and "MASTER" are audited, "web" is not |
| `Rules.HeaderExamples` | Audit.cs:232-235 | a save 1.5 s after creation gets no summary line, one 10 s after creation and 5 s after the last save does, and exactly 2 s is not enough |
| `Rules.FirstCollision` | src/Sitecore.SharedSource.Audit/Pipelines/Initialize/Audit.cs:172-181 | the scan finds the first child, in child order, whose lower-cased name equals the dash-normalized lower-cased proposed name and whose ID differs; it finds none iff no child clashes |
| `Rules.FirstCollisionAt` | Audit.cs:164-171 | a child that clashes, with no clash before it, is the first clash |
| `Rules.GuardExamples` | src/Sitecore.SharedSource.Audit/Pipelines/Initialize/Audit.cs:174 | "Page-1" clashes with a sibling "page-1", and "New Page" with a sibling "new-page" |
| `Formatter.ShownOld` | Audit.cs:240 | the old value is shown as "" iff it is blank (empty or all white space), and verbatim otherwise |
| `Trail.CreateLines` | src/Sitecore.SharedSource.Audit/Pipelines/Initialize/Audit.cs:160-192 | a creation writes at most one line; a CREATE line appears iff the switch is on, the parent is in master and the guard did not reject the name; a rejected creation writes nothing |
| `Trail.CreateLineTemplate` | src/Sitecore.SharedSource.Audit/Pipelines/Initialize/Audit.cs:183-189 | the CREATE line names the template when its ID resolves and shows the raw template ID otherwise |
| `Trail.DuplicateCreationExample` | Audit.cs:162-172 | creating "Page-1" in the shell under a parent with a child "page-1", with the guard on, is rejected and writes no CREATE line |
| `Trail.DeleteLines` | Audit.cs:191-207 | a deletion writes one DELETE line with the item's identity iff the switch is on and the item is in master |
| `Trail.FieldLinesAt` | src/Sitecore.SharedSource.Audit/Pipelines/Initialize/Audit.cs:246-249 | line k of a save's field lines is the field line of the k-th changed name: display name, new value and shown old value |
| `Trail.SaveLines` | Audit.cs:214-246 | nothing is written unless the save is audited (switch on, master) with a stored version; an empty diff writes nothing |
| `Trail.SaveLayout` | src/Sitecore.SharedSource.Audit/Pipelines/Initialize/Audit.cs:238-249 | an audited save with changes writes the optional summary line first, then exactly one field line per changed field, in diff order, whatever the timing |
| `Trail.SaveHeaderIff` | Audit.cs:230-236 | the summary line appears iff the save is audited, the diff is non-empty, and both the creation and the previous save are more than 2 s old |
| `Trail.TitleEdit` | Audit.cs:238-241 | changing "Title" from "A" to "B" gives the diff ["Title"] and the field line `new: B, old: A` |
| `Trail.SaveExample` | src/Sitecore.SharedSource.Audit/Pipelines/Initialize/Audit.cs:222-254 | that edit, saved 10 s after creation and 8 s after the previous save, writes the summary line and then the one field line |
| `Trail.CopyLines` | Audit.cs:309-312 | an audited copy writes one line; it starts "DUPLICATE: " iff the copy goes to the source's own parent under a different name, and "COPY: " otherwise; the line carries the source's database and path, the destination path, the new name, the new ID and the recursive note |
| `Trail.CopyRecursiveNote` | src/Sitecore.SharedSource.Audit/Pipelines/Initialize/Audit.cs:306-309 | the " recursive: True/False" suffix is present iff the source item has children |
| `Trail.MoveLines` | Audit.cs:344-347 | a move writes its one MOVE line iff the switch is on, the item is in master, both parents resolve and they are different items; the line names the item, then the old parent's database and path after "from:", then the new parent's after "to:" |
| `Trail.RenameLines` | src/Sitecore.SharedSource.Audit/Pipelines/Initialize/Audit.cs:370-372 | a rename writes a line iff the switch is on, the previous name differs from the current one, and the item is in master; the line shows the database, the parent path and the previous name, then the current name after "as:" |
| `Trail.SortLines` | Audit.cs:403 | a sort-order change writes one line iff the switch is on and the item is in master |
| `Trail.SortValues` | src/Sitecore.SharedSource.Audit/Pipelines/Initialize/Audit.cs:398-401 | the SORT line shows the current sort order as decimal text that reads back unchanged, and the old value exactly as received, unparsed |
| `Trail.ChangeLineSource` | Audit.cs:432-436 | every change line reports a field that an entry of the change list deletes |
| `Trail.ChangeLineFor` | src/Sitecore.SharedSource.Audit/Pipelines/Initialize/Audit.cs:429-433 | every DeleteField entry of the change list has its "** DeleteField: name" line |
| `Trail.ChangeLinesAppend` | Audit.cs:432 | the change lines follow the order of the change list |
| `Trail.ChangeLinesOne` | src/Sitecore.SharedSource.Audit/Pipelines/Initialize/Audit.cs:431-432 | a DeleteField entry contributes its one line and any other action contributes nothing |
| `Trail.TemplateLines` | src/Sitecore.SharedSource.Audit/Pipelines/Initialize/Audit.cs:414-437 | a template change writes lines iff the item-deleting switch is on, the item is in master and the target and source templates differ; the header comes first, then the change lines |
| `Trail.TemplateIgnoresOwnSwitch` | Audit.cs:420 | the template-change lines do not depend on the template-change switch |
| `Trail.PublishLines` | src/Sitecore.SharedSource.Audit/Pipelines/Initialize/Audit.cs:105-153 | nothing is written with the switch off or for other event args. A skipped publish writes 0 or 2 lines, and 2 exactly when it is not a revision-compare run, its root is this item and the lookup does not fail; the second line is the explanation. A publish that was not skipped writes one line unless the lookup fails |
| `Trail.PublishMessageInline` | Audit.cs:132-140 | a publish that was not skipped shows the item's identity when the source exists, and the raw ID with ", msg: " and the explanation when it does not |
| `Trail.SkippedSubject` | src/Sitecore.SharedSource.Audit/Pipelines/Initialize/Audit.cs:119-130 | a logged skipped publish names the item by its identity when it exists and by its ID otherwise |
| `Trail.OnlyMasterIsAudited` | Audit.cs:276-279 | no item event outside the master database is ever logged |
| `Trail.SwitchedOffIsSilent` | src/Sitecore.SharedSource.Audit/Pipelines/Initialize/Audit.cs:105-437 | a handler whose switch is off writes nothing; for template changes that switch is the item-deleting one |
| `Registry.RegisteredIff` | src/Sitecore.SharedSource.Audit/Pipelines/Initialize/Audit.cs:84-103 | a handler is subscribed, under its event name, iff its kind's switch is on |
| `Registry.RegistrationsDistinct` | Audit.cs:76-95 | no event name is subscribed twice |
| `Registry.RegistrationsIgnoreGlobalSwitches` | src/Sitecore.SharedSource.Audit/Pipelines/Initialize/Audit.cs:86-101 | neither `Audit.Enabled` nor the website-is-master flag changes what is subscribed |
| `Registry.DefaultRegistrations` | Audit.cs:28-95 | with no settings, seven handlers are subscribed; the sort-order and publish ones are not |
| `Registry.OnStart` | src/Sitecore.SharedSource.Audit/Pipelines/Initialize/Audit.cs:84-103 | the bus gains exactly the registrations of the configuration, in source order |
| `Handlers.Audit.Log` | src/Sitecore.SharedSource.Audit/Pipelines/Initialize/Audit.cs:72-81 | a message is appended to the log and nothing else changes |
| `Handlers.Audit.OnItemCreating` | src/Sitecore.SharedSource.Audit/Pipelines/Initialize/Audit.cs:160-192 | the log gains exactly the creation's lines; cancel is set iff the guard rejects the name and is otherwise unchanged; an alert is returned iff the name is rejected, naming the first clashing sibling |
| `Handlers.Audit.OnItemDeleting` | Audit.cs:191-207 | the log gains exactly the deletion's lines |
| `Handlers.Audit.OnItemSaving` | src/Sitecore.SharedSource.Audit/Pipelines/Initialize/Audit.cs:222-254 | the log gains exactly the save's lines; the handler faults iff the save is audited, there is no stored version and the item has a content field |
| `Handlers.Audit.LogFieldLines` | Audit.cs:238-241 | the `foreach` over the differences appends exactly the field lines, in order |
| `Handlers.Audit.OnItemCopying` | src/Sitecore.SharedSource.Audit/Pipelines/Initialize/Audit.cs:289-313 | the log gains exactly the copy's lines |
| `Handlers.Audit.OnItemMoving` | Audit.cs:327-351 | the log gains exactly the move's lines |
| `Handlers.Audit.OnItemRenamed` | src/Sitecore.SharedSource.Audit/Pipelines/Initialize/Audit.cs:358-376 | the log gains exactly the rename's lines |
| `Handlers.Audit.OnItemSortOrderChanged` | Audit.cs:389-407 | the log gains exactly the sort-order change's lines |
| `Handlers.Audit.OnItemTemplateChanged` | src/Sitecore.SharedSource.Audit/Pipelines/Initialize/Audit.cs:414-437 | the log gains exactly the template change's lines |
| `Handlers.Audit.LogChangeLines` | Audit.cs:432-436 | the filtering `foreach` appends exactly the DeleteField lines, in order |
| `Handlers.Audit.OnItemPublished` | Audit.cs:97-145 | the log gains exactly the publish's lines; the handler faults iff a publish that was not skipped has a source lookup that throws |

## Left out

- Sitecore runtime services are plain inputs:
  - the settings store is a map from setting name to boolean, so parsing of setting strings is not modelled;
  - the site manager's website database is a string;
  - `Database.Items[id]` is a map from ID to item;
  - `Database.GetItem` is an optional stored version;
  - `Event.ExtractParameter` is a typed payload;
  - `Context.Site.Name` is a parameter.
- The `Process` pipeline entry only calls `OnStart`.
- `Event.Subscribe` is modelled as a bus that records subscriptions in order. The bus's delivery of events to handlers is not modelled; `Trail.EventLines` is what a delivered event makes its handler write.
- `SecurityDisabler` scopes: they lift authorization checks and have no effect on what is logged.
- `Log`: the log4net sink, the fallback to the platform's audit log and the "(user): " prefix with its anonymous-user default are not modelled. The log holds the messages the handler passes to `Log`.
- `Context.ClientPage.ClientResponse.Alert` is a UI call; the alert text is returned from `OnItemCreating`.
- `AuditFormatter.FormatItem` is not part of this model. It is a deterministic function fixed when the handler is built.
- Time is DateTime ticks (integers), not `TimeSpan.TotalSeconds` as a double. "More than 2 seconds" is "more than 20 000 000 ticks", which agrees except for rounding the double might do.
- `GetWorkflowState` (older copy only) is never called, and it wraps a foreign workflow lookup.
- Text comparison:
  - `ToLower` is culture-sensitive; the model lower-cases ASCII letters only.
  - `StartsWith("__")` is culture-sensitive; it is modelled as an ordinal prefix test.
  - `IsNullOrWhiteSpace` has no null case, because values are never null.
- Field lookup by name: Sitecore matches field names case-insensitively, and which of several same-named fields it returns is not part of this model; the model matches names exactly and takes the first such field.
- Null payloads are not modelled: null event args, a null item, a null change list, a null destination, a missing parent of the root item, a null `SourceField`. In the source these fail `Assert.IsTrue` or raise a null reference. The move handler's call of `ShouldAudit` before its null test is part of this.
- Exceptions other than the two modelled faults are not modelled (for example, the item formatter failing). A skipped publish whose root item is null is one of the swallowed failures, so it writes nothing.
- Concurrency: each handler call runs to completion on the thread that raised the event, and the model treats calls as sequential.
