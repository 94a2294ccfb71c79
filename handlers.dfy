/** The handler object: one instance holds the configuration read at start-up
    and the log it appends to; each event handler is a method that appends
    exactly the lines `Trail` specifies for its event. */
module Handlers {
  import opened Wrappers
  import opened Strings
  import opened Domain
  import opened Diff
  import opened Rules
  import opened Formatter
  import opened Trail

  /** `ItemCreatingEventArgs`: the proposed item and its parent; the handler may set `cancel`. */
  class ItemCreatingArgs {
    const parent: Item
    const itemName: string
    const itemId: Id
    const templateId: Id
    var cancel: bool

    constructor (parent: Item, itemName: string, itemId: Id, templateId: Id)
      ensures this.parent == parent && this.itemName == itemName
      ensures this.itemId == itemId && this.templateId == templateId
      ensures !cancel
    {
      this.parent := parent;
      this.itemName := itemName;
      this.itemId := itemId;
      this.templateId := templateId;
      cancel := false;
    }
  }

  lemma AppendAssoc(a: seq<string>, b: seq<string>, c: seq<string>)
    ensures (a + b) + c == a + (b + c)
  {
  }

  class Audit {
    const config: Config
    /** `AuditFormatter.FormatItem`. */
    const formatItem: Item -> string
    /** The messages written to the audit log, oldest first. */
    var log: seq<string>

    constructor (config: Config, formatItem: Item -> string)
      ensures this.config == config && this.formatItem == formatItem && log == []
    {
      this.config := config;
      this.formatItem := formatItem;
      log := [];
    }

    /** `Log(message)`. */
    method Log(message: string)
      modifies this
      ensures log == old(log) + [message]
    {
      log := log + [message];
    }

    /** `OnItemCreating`: in the shell, with duplicate names prevented, cancel a
        creation whose normalized name clashes with a sibling and return the
        alert for the first such sibling; otherwise log the creation. */
    method OnItemCreating(siteName: string, arg: ItemCreatingArgs, db: map<Id, Item>) returns (alert: Option<string>)
      modifies this, arg
      ensures log == old(log) + CreateLines(config, siteName, arg.parent, arg.itemName, arg.itemId, arg.templateId, db)
      ensures arg.cancel == (old(arg.cancel) || CreationRejected(config, siteName, arg.parent, arg.itemName, arg.itemId))
      ensures alert.Some? <==> CreationRejected(config, siteName, arg.parent, arg.itemName, arg.itemId)
      ensures alert.Some? ==>
        alert.value == AlertText(arg.parent.children[FirstCollision(arg.parent.children, arg.itemName, arg.itemId, 0).value].name)
    {
      alert := None;
      if !config.itemCreating {
        return;
      }
      if siteName == "shell" && config.preventDuplicateNames {
        var children := arg.parent.children;
        var i := 0;
        while i < |children|
          invariant 0 <= i <= |children|
          invariant forall j :: 0 <= j < i ==> !Collides(children[j], arg.itemName, arg.itemId)
        {
          var current := children[i];
          if Lower(ReplaceChar(arg.itemName, ' ', '-')) == Lower(current.name) && arg.itemId != current.id {
            arg.cancel := true;
            alert := Some(AlertText(current.name));
            FirstCollisionAt(children, arg.itemName, arg.itemId, i);
            return;
          }
          i := i + 1;
        }
      }
      if ShouldAudit(arg.parent) {
        var templateName := if arg.templateId in db then db[arg.templateId].name else arg.templateId;
        Log(CreateLine(arg.parent.db, arg.parent.path, arg.itemName, arg.itemId, templateName));
      }
    }

    /** `OnItemDeleting`. */
    method OnItemDeleting(item: Item)
      modifies this
      ensures log == old(log) + DeleteLines(config, formatItem, item)
    {
      if config.itemDeleting && ShouldAudit(item) {
        Log(DeleteLine(formatItem(item)));
      }
    }

    /** `OnItemSaving`: diff the version being saved against the stored one and
        log the optional summary line and one line per changed field.
        `faulted` reports the exception raised when there is no stored version. */
    method OnItemSaving(item: Item, baseline: Option<Item>) returns (faulted: bool)
      modifies this
      ensures faulted == SaveFaults(config, item, baseline)
      ensures log == old(log) + SaveLines(config, formatItem, item, baseline)
    {
      faulted := false;
      if config.itemSaving && ShouldAudit(item) {
        match baseline {
          case None =>
            faulted := exists j :: 0 <= j < |item.fields| && !IsSystemName(item.fields[j].name);
          case Some(original) =>
            var differences := FindDifferences(item, original);
            if differences != [] {
              ghost var before := log;
              if ShouldEmitHeader(item.created, original.updated, item.updated) {
                Log(SaveHeaderLine(formatItem(item)));
              }
              assert log == before + SaveHeader(formatItem, item, original);
              LogFieldLines(formatItem(item), item, original, differences);
              AppendAssoc(before, SaveHeader(formatItem, item, original), FieldLines(formatItem(item), item, original, differences));
            }
        }
      }
    }

    /** The `foreach` over the differences of a save: one field line per name. */
    method LogFieldLines(identity: string, item: Item, original: Item, differences: seq<string>)
      modifies this
      ensures log == old(log) + FieldLines(identity, item, original, differences)
    {
      ghost var start := log;
      for i := 0 to |differences|
        invariant log == start + FieldLines(identity, item, original, differences[..i])
      {
        var f := differences[i];
        Log(SaveFieldLine(identity, DisplayNameOf(item, f), ValueOf(item, f), ShownOld(ValueOf(original, f))));
        FieldLinesSnoc(identity, item, original, differences, i);
      }
      assert differences[..|differences|] == differences;
    }

    /** `OnItemCopying`: a copy beside the original under a new name is logged as a duplicate. */
    method OnItemCopying(item: Item, destination: Item, copyName: string, copyId: Id, recursive: bool)
      modifies this
      ensures log == old(log) + CopyLines(config, item, destination, copyName, copyId, recursive)
    {
      if config.itemCopying && ShouldAudit(item) {
        var note := if |item.children| == 0 then "" else " recursive: " + BoolText(recursive);
        if item.parentPath == destination.path && item.name != copyName {
          Log(CopyLine("DUPLICATE", item.db, item.path, destination.path, copyName, copyId, note));
        } else {
          Log(CopyLine("COPY", item.db, item.path, destination.path, copyName, copyId, note));
        }
      }
    }

    /** `OnItemMoving`: logged only when both parents resolve and differ. */
    method OnItemMoving(item: Item, db: map<Id, Item>, oldParentId: Id, newParentId: Id)
      modifies this
      ensures log == old(log) + MoveLines(config, item, db, oldParentId, newParentId)
    {
      if config.itemMoving && ShouldAudit(item) {
        if oldParentId in db && newParentId in db {
          var oldParent, newParent := db[oldParentId], db[newParentId];
          if oldParent.id != newParent.id {
            Log(MoveLine(item.name, oldParent.db, oldParent.path, newParent.db, newParent.path));
          }
        }
      }
    }

    /** `OnItemRenamed`: logged only when the name actually changed. */
    method OnItemRenamed(item: Item, previousName: string)
      modifies this
      ensures log == old(log) + RenameLines(config, item, previousName)
    {
      if config.itemRenamed && previousName != item.name && ShouldAudit(item) {
        Log(RenameLine(item.db, item.parentPath, previousName, item.name));
      }
    }

    /** `OnItemSortOrderChanged`. */
    method OnItemSortOrderChanged(item: Item, oldSortOrder: string)
      modifies this
      ensures log == old(log) + SortLines(config, item, oldSortOrder)
    {
      if config.itemSortOrderChanged && ShouldAudit(item) {
        Log(SortLine(item.db, item.path, item.sortOrder, oldSortOrder));
      }
    }

    /** `OnItemTemplateChanged`: the header, then one line per deleted field.
        The handler runs under the item-deleting switch. */
    method OnItemTemplateChanged(item: Item, change: TemplateChangeList)
      modifies this
      ensures log == old(log) + TemplateLines(config, item, change)
    {
      if config.itemDeleting && ShouldAudit(item) && change.target.id != change.source.id {
        ghost var before := log;
        var header := TemplateHeaderLine(item.db, item.path, change.target.name, change.source.name);
        Log(header);
        LogChangeLines(change.changes);
        AppendAssoc(before, [header], ChangeLines(change.changes));
      }
    }

    /** The `foreach` over a template change list: a line for each DeleteField entry. */
    method LogChangeLines(changes: seq<TemplateChange>)
      modifies this
      ensures log == old(log) + ChangeLines(changes)
    {
      ghost var start := log;
      for i := 0 to |changes|
        invariant log == start + ChangeLines(changes[..i])
      {
        var c := changes[i];
        if c.action == DeleteField {
          Log(ChangeLine(ActionText(c.action), c.sourceFieldName));
        }
        assert changes[..i + 1] == changes[..i] + [c];
        ChangeLinesAppend(changes[..i], [c]);
        ChangeLinesOne(c);
      }
      assert changes[..|changes|] == changes;
    }

    /** `OnItemPublished`. `faulted` reports the exception that escapes when
        looking up the source of a publish that was not skipped fails. */
    method OnItemPublished(args: ProcessedArgs) returns (faulted: bool)
      modifies this
      ensures faulted == PublishFaults(config, args)
      ensures log == old(log) + PublishLines(config, formatItem, args)
    {
      faulted := false;
      if args.ItemProcessed? && config.itemPublished {
        var context := args.context;
        if context.operation == Skipped {
          // every failure inside this branch is caught and dropped
          if !context.compareRevisions && context.rootItemId.Some? && context.rootItemId.value == context.itemId {
            match context.source {
              case LookupFails =>
              case Exists(sourceItem) =>
                Log(PublishLine(OperationText(context.operation), formatItem(sourceItem)));
                Log(ExplanationLine(context.explanation));
              case Missing =>
                Log(PublishLine(OperationText(context.operation), context.itemId));
                Log(ExplanationLine(context.explanation));
            }
          }
        } else {
          match context.source {
            case LookupFails =>
              faulted := true;
            case Exists(sourceItem) =>
              Log(PublishLine(OperationText(context.operation), formatItem(sourceItem)));
            case Missing =>
              Log(PublishLine(OperationText(context.operation), context.itemId) + ", msg: " + context.explanation);
          }
        }
      }
    }
  }
}
