/** The audit lines each handler writes for one event, as functions of the
    configuration, the item formatter and the event's payload. The handler
    methods append exactly these lines to the log. */
module Trail {
  import opened Wrappers
  import opened Strings
  import opened Domain
  import opened Diff
  import opened Rules
  import opened Formatter

  // ---------------------------------------------------------------- creating

  /** `Database.Items[templateId]`'s name, or the raw template ID when it does not resolve. */
  function TemplateName(db: map<Id, Item>, templateId: Id): string {
    if templateId in db then db[templateId].name else templateId
  }

  function CreateLines(config: Config, siteName: string, parent: Item, itemName: string, itemId: Id,
                       templateId: Id, db: map<Id, Item>): (r: seq<string>)
    ensures |r| <= 1
    ensures CreationRejected(config, siteName, parent, itemName, itemId) ==> r == []
    ensures r != [] <==> config.itemCreating && ShouldAudit(parent) && !CreationRejected(config, siteName, parent, itemName, itemId)
    ensures r != [] ==> StartsWith(r[0], "CREATE: ")
  {
    if !config.itemCreating then []
    else if GuardActive(config, siteName) && FirstCollision(parent.children, itemName, itemId, 0).Some? then []
    else if ShouldAudit(parent) then
      [CreateLine(parent.db, parent.path, itemName, itemId, TemplateName(db, templateId))]
    else []
  }

  /** The CREATE line names the template when it resolves and shows its raw ID otherwise. */
  lemma CreateLineTemplate(config: Config, siteName: string, parent: Item, itemName: string, itemId: Id,
                           templateId: Id, db: map<Id, Item>)
    requires CreateLines(config, siteName, parent, itemName, itemId, templateId, db) != []
    ensures var line := CreateLines(config, siteName, parent, itemName, itemId, templateId, db)[0];
      (templateId in db ==> line == CreateLine(parent.db, parent.path, itemName, itemId, db[templateId].name)) &&
      (templateId !in db ==> line == CreateLine(parent.db, parent.path, itemName, itemId, templateId))
  {
  }

  /** Creating "Page-1" in the shell, with duplicate names prevented, under a
      parent that already has a "page-1" child is cancelled and logs nothing. */
  lemma DuplicateCreationExample(config: Config, parent: Item, existing: Item, db: map<Id, Item>)
    requires config.itemCreating && config.preventDuplicateNames
    requires parent.children == [existing] && existing.name == "page-1" && existing.id != "{2}"
    ensures CreationRejected(config, "shell", parent, "Page-1", "{2}")
    ensures CreateLines(config, "shell", parent, "Page-1", "{2}", "{T}", db) == []
  {
  }

  // ---------------------------------------------------------------- deleting

  function DeleteLines(config: Config, formatItem: Item -> string, item: Item): (r: seq<string>)
    ensures r != [] <==> config.itemDeleting && ShouldAudit(item)
    ensures r != [] ==> r == [DeleteLine(formatItem(item))]
  {
    if config.itemDeleting && ShouldAudit(item) then [DeleteLine(formatItem(item))] else []
  }

  // ---------------------------------------------------------------- saving

  /** The field line for one changed field name. */
  function FieldLine(identity: string, item: Item, original: Item, name: string): string {
    SaveFieldLine(identity, DisplayNameOf(item, name), ValueOf(item, name), ShownOld(ValueOf(original, name)))
  }

  /** One field line per name, in order. */
  function FieldLines(identity: string, item: Item, original: Item, names: seq<string>): (r: seq<string>)
    ensures |r| == |names|
  {
    if names == [] then [] else [FieldLine(identity, item, original, names[0])] + FieldLines(identity, item, original, names[1..])
  }

  /** Line `k` is the field line of name `k`. */
  lemma {:induction false} FieldLinesAt(identity: string, item: Item, original: Item, names: seq<string>, k: nat)
    requires k < |names|
    ensures FieldLines(identity, item, original, names)[k] == FieldLine(identity, item, original, names[k])
  {
    if k > 0 {
      FieldLinesAt(identity, item, original, names[1..], k - 1);
    }
  }

  /** The field lines of two name lists, one after the other. */
  lemma {:induction false} FieldLinesAppend(identity: string, item: Item, original: Item, a: seq<string>, b: seq<string>)
    ensures FieldLines(identity, item, original, a + b) ==
      FieldLines(identity, item, original, a) + FieldLines(identity, item, original, b)
  {
    if a == [] {
      assert a + b == b;
    } else {
      assert (a + b)[0] == a[0];
      assert (a + b)[1..] == a[1..] + b;
      FieldLinesAppend(identity, item, original, a[1..], b);
    }
  }

  /** The field lines of the first `i + 1` names extend those of the first `i`. */
  lemma FieldLinesSnoc(identity: string, item: Item, original: Item, names: seq<string>, i: nat)
    requires i < |names|
    ensures FieldLines(identity, item, original, names[..i + 1]) ==
      FieldLines(identity, item, original, names[..i]) + [FieldLine(identity, item, original, names[i])]
  {
    assert names[..i + 1] == names[..i] + [names[i]];
    FieldLinesAppend(identity, item, original, names[..i], [names[i]]);
    assert [names[i]][1..] == [];
  }

  /** The header of a save whose baseline is `original`, if it gets one. */
  function SaveHeader(formatItem: Item -> string, item: Item, original: Item): seq<string> {
    if ShouldEmitHeader(item.created, original.updated, item.updated) then [SaveHeaderLine(formatItem(item))] else []
  }

  /** The handler fails before writing anything: there is no stored version to
      compare with, and the diff reads it for a content field. */
  predicate SaveFaults(config: Config, item: Item, baseline: Option<Item>) {
    config.itemSaving && ShouldAudit(item) && baseline.None?
    && exists j :: 0 <= j < |item.fields| && !IsSystemName(item.fields[j].name)
  }

  function SaveLines(config: Config, formatItem: Item -> string, item: Item, baseline: Option<Item>): (r: seq<string>)
    ensures !(config.itemSaving && ShouldAudit(item) && baseline.Some?) ==> r == []
    ensures baseline.Some? && FindDifferences(item, baseline.value) == [] ==> r == []
  {
    if !(config.itemSaving && ShouldAudit(item)) then []
    else match baseline
      case None => []
      case Some(original) =>
        var differences := FindDifferences(item, original);
        if differences == [] then []
        else SaveHeader(formatItem, item, original) + FieldLines(formatItem(item), item, original, differences)
  }

  /** A save with changes writes the optional header first and then exactly
      one field line per changed field, in diff order, whatever the timing. */
  lemma SaveLayout(config: Config, formatItem: Item -> string, item: Item, original: Item)
    requires config.itemSaving && ShouldAudit(item)
    requires FindDifferences(item, original) != []
    ensures var r, d := SaveLines(config, formatItem, item, Some(original)), FindDifferences(item, original);
      var h := if ShouldEmitHeader(item.created, original.updated, item.updated) then 1 else 0;
      |r| == h + |d| &&
      (h == 1 ==> r[0] == SaveHeaderLine(formatItem(item))) &&
      forall k :: 0 <= k < |d| ==> r[h + k] == FieldLine(formatItem(item), item, original, d[k])
  {
    var d := FindDifferences(item, original);
    forall k | 0 <= k < |d| {
      FieldLinesAt(formatItem(item), item, original, d, k);
    }
  }

  /** A field line is never mistaken for the header: it is longer. */
  lemma FieldLineIsNotHeader(identity: string, item: Item, original: Item, name: string)
    ensures FieldLine(identity, item, original, name) != SaveHeaderLine(identity)
  {
    assert |FieldLine(identity, item, original, name)| > |SaveHeaderLine(identity)|;
  }

  /** The summary line appears iff the save is audited, the diff is non-empty
      and both the creation and the previous save are more than 2 s old. */
  lemma {:induction false} SaveHeaderIff(config: Config, formatItem: Item -> string, item: Item, baseline: Option<Item>)
    ensures SaveHeaderLine(formatItem(item)) in SaveLines(config, formatItem, item, baseline) <==>
      config.itemSaving && ShouldAudit(item) && baseline.Some? &&
      FindDifferences(item, baseline.value) != [] &&
      ShouldEmitHeader(item.created, baseline.value.updated, item.updated)
  {
    var r := SaveLines(config, formatItem, item, baseline);
    var identity := formatItem(item);
    if config.itemSaving && ShouldAudit(item) && baseline.Some? && FindDifferences(item, baseline.value) != [] {
      var original := baseline.value;
      var d := FindDifferences(item, original);
      var fields := FieldLines(identity, item, original, d);
      assert r == SaveHeader(formatItem, item, original) + fields;
      forall k | 0 <= k < |fields| ensures fields[k] != SaveHeaderLine(identity) {
        FieldLinesAt(identity, item, original, d, k);
        FieldLineIsNotHeader(identity, item, original, d[k]);
      }
      assert SaveHeaderLine(identity) !in fields;
    }
  }

  /** The edit of the save example: "Title" changed from "A" to "B". */
  lemma TitleEdit(identity: string, item: Item, original: Item)
    requires item.fields == [Field("{F}", "Title", "Title", "B")]
    requires original.fields == [Field("{F}", "Title", "Title", "A")]
    ensures FindDifferences(item, original) == ["Title"]
    ensures FieldLines(identity, item, original, ["Title"]) == [SaveFieldLine(identity, "Title", "B", "A")]
  {
    assert !IsSystemName("Title") by { assert "Title"[0] != '_'; }
    SingleFieldEdit(item, original, 0);
    assert FieldIndex(item.fields, "Title") == Some(0);
    assert FieldIndex(original.fields, "Title") == Some(0);
    assert ShownOld("A") == "A" by { assert !IsBlank("A") by { assert !IsWhiteSpace("A"[0]); } }
    assert ["Title"][1..] == [];
  }

  /** A save 10 s after creation and 8 s after the last save that changed
      "Title" from "A" to "B" writes the header, then the one field line. */
  lemma SaveExample(config: Config, formatItem: Item -> string, item: Item, original: Item, now: int)
    requires config.itemSaving && ShouldAudit(item)
    requires item.fields == [Field("{F}", "Title", "Title", "B")]
    requires original.fields == [Field("{F}", "Title", "Title", "A")]
    requires item.created == now - 10 * TicksPerSecond && item.updated == now
    requires original.updated == now - 8 * TicksPerSecond
    ensures SaveLines(config, formatItem, item, Some(original)) ==
      [SaveHeaderLine(formatItem(item)), SaveFieldLine(formatItem(item), "Title", "B", "A")]
  {
    TitleEdit(formatItem(item), item, original);
    assert ShouldEmitHeader(item.created, original.updated, item.updated);
  }

  // ---------------------------------------------------------------- copying

  function CopyLines(config: Config, item: Item, destination: Item, copyName: string, copyId: Id, recursive: bool): (r: seq<string>)
    ensures |r| <= 1
    ensures r != [] <==> config.itemCopying && ShouldAudit(item)
    ensures r != [] ==> (StartsWith(r[0], "DUPLICATE: ") <==> IsDuplicate(item, destination, copyName))
    ensures r != [] ==> (StartsWith(r[0], "COPY: ") <==> !IsDuplicate(item, destination, copyName))
    ensures r != [] ==> r == [CopyLine(if IsDuplicate(item, destination, copyName) then "DUPLICATE" else "COPY",
                                       item.db, item.path, destination.path, copyName, copyId,
                                       RecursiveNote(|item.children| > 0, recursive))]
  {
    if config.itemCopying && ShouldAudit(item) then
      var note := RecursiveNote(|item.children| > 0, recursive);
      var verb := if IsDuplicate(item, destination, copyName) then "DUPLICATE" else "COPY";
      var line := CopyLine(verb, item.db, item.path, destination.path, copyName, copyId, note);
      assert line[0] == (if verb == "COPY" then 'C' else 'D');
      [line]
    else []
  }

  /** The recursive-copy flag is rendered only when the source item has children. */
  lemma CopyRecursiveNote(config: Config, item: Item, destination: Item, copyName: string, copyId: Id, recursive: bool)
    requires config.itemCopying && ShouldAudit(item)
    ensures var line := CopyLines(config, item, destination, copyName, copyId, recursive)[0];
      var bare := CopyLines(config, item.(children := []), destination, copyName, copyId, recursive)[0];
      (|item.children| == 0 ==> line == bare) &&
      (|item.children| > 0 ==> line == bare + " recursive: " + BoolText(recursive))
  {
  }

  // ---------------------------------------------------------------- moving

  function MoveLines(config: Config, item: Item, db: map<Id, Item>, oldParentId: Id, newParentId: Id): (r: seq<string>)
    ensures |r| <= 1
    ensures r != [] <==> config.itemMoving && ShouldAudit(item) && MoveResolves(db, oldParentId, newParentId)
    ensures r != [] ==> r == [MoveLine(item.name, db[oldParentId].db, db[oldParentId].path, db[newParentId].db, db[newParentId].path)]
  {
    if config.itemMoving && ShouldAudit(item) && MoveResolves(db, oldParentId, newParentId) then
      var oldParent, newParent := db[oldParentId], db[newParentId];
      [MoveLine(item.name, oldParent.db, oldParent.path, newParent.db, newParent.path)]
    else []
  }

  // ---------------------------------------------------------------- renamed

  function RenameLines(config: Config, item: Item, previousName: string): (r: seq<string>)
    ensures |r| <= 1
    ensures r != [] <==> config.itemRenamed && IsRealRename(item, previousName) && ShouldAudit(item)
    ensures previousName == item.name ==> r == []
    ensures r != [] ==> r == [RenameLine(item.db, item.parentPath, previousName, item.name)]
  {
    if config.itemRenamed && IsRealRename(item, previousName) && ShouldAudit(item) then
      [RenameLine(item.db, item.parentPath, previousName, item.name)]
    else []
  }

  // ---------------------------------------------------------------- sort order changed

  function SortLines(config: Config, item: Item, oldSortOrder: string): (r: seq<string>)
    ensures |r| <= 1
    ensures r != [] <==> config.itemSortOrderChanged && ShouldAudit(item)
  {
    if config.itemSortOrderChanged && ShouldAudit(item) then
      [SortLine(item.db, item.path, item.sortOrder, oldSortOrder)]
    else []
  }

  /** The new sort order is rendered as a number that reads back unchanged,
      and the old one is copied as it came, unparsed. */
  lemma SortValues(config: Config, item: Item, oldSortOrder: string)
    requires config.itemSortOrderChanged && ShouldAudit(item)
    ensures var line := SortLines(config, item, oldSortOrder)[0];
      var prefix := "SORT: " + item.db + ":" + item.path + ", new: ";
      var shown := IntText(item.sortOrder);
      line == prefix + shown + ", old: " + oldSortOrder && ParseInt(shown) == Some(item.sortOrder)
  {
    IntTextRoundTrip(item.sortOrder);
  }

  // ---------------------------------------------------------------- template changed

  /** The lines for the entries of a change list: one per DeleteField entry. */
  function ChangeLines(changes: seq<TemplateChange>): (r: seq<string>)
    ensures |r| <= |changes|
  {
    if changes == [] then []
    else
      var c := changes[0];
      (if c.action == DeleteField then [ChangeLine(ActionText(c.action), c.sourceFieldName)] else []) + ChangeLines(changes[1..])
  }

  /** Every change line names a field that an entry of the list deletes. */
  lemma {:induction false} ChangeLineSource(changes: seq<TemplateChange>, k: nat)
    requires k < |ChangeLines(changes)|
    ensures exists j :: 0 <= j < |changes| && changes[j].action == DeleteField
                        && ChangeLines(changes)[k] == ChangeLine("DeleteField", changes[j].sourceFieldName)
  {
    var c := changes[0];
    var own := if c.action == DeleteField then [ChangeLine(ActionText(c.action), c.sourceFieldName)] else [];
    var rest := ChangeLines(changes[1..]);
    assert ChangeLines(changes) == own + rest;
    if k < |own| {
      assert changes[0].action == DeleteField && ChangeLines(changes)[k] == ChangeLine("DeleteField", changes[0].sourceFieldName);
    } else {
      ChangeLineSource(changes[1..], k - |own|);
      var j :| 0 <= j < |changes[1..]| && changes[1..][j].action == DeleteField
               && rest[k - |own|] == ChangeLine("DeleteField", changes[1..][j].sourceFieldName);
      assert changes[j + 1] == changes[1..][j];
      assert ChangeLines(changes)[k] == rest[k - |own|];
    }
  }

  /** Every entry that deletes a field has its change line. */
  lemma {:induction false} ChangeLineFor(changes: seq<TemplateChange>, j: nat)
    requires j < |changes| && changes[j].action == DeleteField
    ensures ChangeLine("DeleteField", changes[j].sourceFieldName) in ChangeLines(changes)
  {
    var c := changes[0];
    var own := if c.action == DeleteField then [ChangeLine(ActionText(c.action), c.sourceFieldName)] else [];
    var rest := ChangeLines(changes[1..]);
    assert ChangeLines(changes) == own + rest;
    if j > 0 {
      assert changes[1..][j - 1] == changes[j];
      ChangeLineFor(changes[1..], j - 1);
    }
  }

  /** The change lines keep the order of the change list. */
  lemma {:induction false} ChangeLinesAppend(a: seq<TemplateChange>, b: seq<TemplateChange>)
    ensures ChangeLines(a + b) == ChangeLines(a) + ChangeLines(b)
  {
    if a == [] {
      assert a + b == b;
    } else {
      assert (a + b)[0] == a[0];
      assert (a + b)[1..] == a[1..] + b;
      ChangeLinesAppend(a[1..], b);
    }
  }

  /** The line one entry contributes: its field for a DeleteField entry, nothing for any other action. */
  lemma ChangeLinesOne(c: TemplateChange)
    ensures c.action == DeleteField ==> ChangeLines([c]) == [ChangeLine("DeleteField", c.sourceFieldName)]
    ensures c.action != DeleteField ==> ChangeLines([c]) == []
  {
    assert [c][1..] == [];
  }

  function TemplateLines(config: Config, item: Item, change: TemplateChangeList): (r: seq<string>)
    ensures r != [] <==> config.itemDeleting && ShouldAudit(item) && change.target.id != change.source.id
    ensures r != [] ==> r[0] == TemplateHeaderLine(item.db, item.path, change.target.name, change.source.name)
                        && r[1..] == ChangeLines(change.changes)
  {
    if config.itemDeleting && ShouldAudit(item) && change.target.id != change.source.id then
      [TemplateHeaderLine(item.db, item.path, change.target.name, change.source.name)] + ChangeLines(change.changes)
    else []
  }

  /** The template-change lines do not depend on the template-change switch. */
  lemma TemplateIgnoresOwnSwitch(config: Config, item: Item, change: TemplateChangeList, b: bool)
    ensures TemplateLines(config.(itemTemplateChanged := b), item, change) == TemplateLines(config, item, change)
  {
  }

  // ---------------------------------------------------------------- publish

  /** The handler fails: a publish that was not skipped, whose source lookup throws. */
  predicate PublishFaults(config: Config, args: ProcessedArgs) {
    config.itemPublished && args.ItemProcessed?
    && args.context.operation != Skipped && args.context.source.LookupFails?
  }

  /** The lines of a skipped publish: only for a deliberate republish of this
      very item (not a revision-compare run, and the root of the publish);
      a failure while resolving the item is swallowed. */
  function SkippedLines(formatItem: Item -> string, context: PublishContext): seq<string> {
    if context.compareRevisions then []
    else match context.rootItemId
      case None => []
      case Some(rootId) =>
        if rootId != context.itemId then []
        else match context.source
          case LookupFails => []
          case Exists(item) => [PublishLine("Skipped", formatItem(item)), ExplanationLine(context.explanation)]
          case Missing => [PublishLine("Skipped", context.itemId), ExplanationLine(context.explanation)]
  }

  /** The line of a publish that was not skipped. */
  function ProcessedLines(formatItem: Item -> string, context: PublishContext): seq<string> {
    var op := OperationText(context.operation);
    match context.source
    case Exists(item) => [PublishLine(op, formatItem(item))]
    case Missing => [PublishLine(op, context.itemId) + ", msg: " + context.explanation]
    case LookupFails => []
  }

  function PublishLines(config: Config, formatItem: Item -> string, args: ProcessedArgs): (r: seq<string>)
    ensures !config.itemPublished || args.OtherArgs? ==> r == []
    ensures args.ItemProcessed? && args.context.operation == Skipped ==>
      (|r| == 0 || |r| == 2) &&
      (args.context.compareRevisions ==> r == []) &&
      (|r| == 2 <==> config.itemPublished && !args.context.compareRevisions &&
                     args.context.rootItemId == Some(args.context.itemId) && !args.context.source.LookupFails?) &&
      (|r| == 2 ==> r[1] == ExplanationLine(args.context.explanation))
    ensures args.ItemProcessed? && args.context.operation != Skipped ==>
      (|r| == 1 <==> config.itemPublished && !args.context.source.LookupFails?) && |r| <= 1
  {
    if !config.itemPublished then []
    else match args
      case OtherArgs => []
      case ItemProcessed(context) =>
        if context.operation == Skipped then SkippedLines(formatItem, context)
        else ProcessedLines(formatItem, context)
  }

  /** A published item's line carries the explanation inline exactly when the
      source item does not exist. */
  lemma PublishMessageInline(config: Config, formatItem: Item -> string, context: PublishContext)
    requires config.itemPublished && context.operation != Skipped && !context.source.LookupFails?
    ensures var line := PublishLines(config, formatItem, ItemProcessed(context))[0];
      var op := OperationText(context.operation);
      (context.source.Missing? ==> line == PublishLine(op, context.itemId) + ", msg: " + context.explanation) &&
      (context.source.Exists? ==> line == PublishLine(op, formatItem(context.source.item)))
  {
  }

  /** A logged skipped publish names the item: by its identity when it exists, by its ID otherwise. */
  lemma SkippedSubject(config: Config, formatItem: Item -> string, context: PublishContext)
    requires context.operation == Skipped
    requires |PublishLines(config, formatItem, ItemProcessed(context))| == 2
    ensures var line := PublishLines(config, formatItem, ItemProcessed(context))[0];
      (context.source.Exists? ==> line == PublishLine("Skipped", formatItem(context.source.item))) &&
      (context.source.Missing? ==> line == PublishLine("Skipped", context.itemId))
  {
  }

  // ---------------------------------------------------------------- all events

  /** The lines the handler writes for any event. */
  function EventLines(config: Config, formatItem: Item -> string, siteName: string, e: Event): seq<string> {
    match e
    case ItemCreating(parent, itemName, itemId, templateId, db) => CreateLines(config, siteName, parent, itemName, itemId, templateId, db)
    case ItemSaving(item, baseline) => SaveLines(config, formatItem, item, baseline)
    case ItemDeleting(item) => DeleteLines(config, formatItem, item)
    case ItemCopying(item, destination, copyName, copyId, recursive) => CopyLines(config, item, destination, copyName, copyId, recursive)
    case ItemMoving(item, db, oldParentId, newParentId) => MoveLines(config, item, db, oldParentId, newParentId)
    case ItemRenamed(item, previousName) => RenameLines(config, item, previousName)
    case ItemSortOrderChanged(item, oldSortOrder) => SortLines(config, item, oldSortOrder)
    case ItemTemplateChanged(item, change) => TemplateLines(config, item, change)
    case ItemPublished(args) => PublishLines(config, formatItem, args)
  }

  /** The item whose database decides whether an item event is audited. */
  function Subject(e: Event): Item
    requires !e.ItemPublished?
  {
    match e
    case ItemCreating(parent, _, _, _, _) => parent
    case ItemSaving(item, _) => item
    case ItemDeleting(item) => item
    case ItemCopying(item, _, _, _, _) => item
    case ItemMoving(item, _, _, _) => item
    case ItemRenamed(item, _) => item
    case ItemSortOrderChanged(item, _) => item
    case ItemTemplateChanged(item, _) => item
  }

  /** Item events outside the master database are never logged; publish
      events are not scoped by database. */
  lemma OnlyMasterIsAudited(config: Config, formatItem: Item -> string, siteName: string, e: Event)
    requires !e.ItemPublished? && !ShouldAudit(Subject(e))
    ensures EventLines(config, formatItem, siteName, e) == []
  {
  }

  /** A handler whose own switch is off writes nothing; for template changes
      that switch is the item-deleting one. */
  lemma SwitchedOffIsSilent(config: Config, formatItem: Item -> string, siteName: string, e: Event)
    requires !HandlerGate(config, KindOf(e))
    ensures EventLines(config, formatItem, siteName, e) == []
  {
  }
}
