/** The repository entities the audit handler observes, with the Sitecore
    runtime replaced by plain values: an item carries its database name,
    paths, fields, children and timestamps; configuration is a record of the
    boolean settings read at start-up. */
module Domain {
  import opened Wrappers
  import opened Strings

  /** An item or template ID, as its rendered text (`ID.ToString()`). */
  type Id = string

  /** One field of one item version: its stable ID, its name, the name shown to
      editors, and its stored value. */
  datatype Field = Field(id: Id, name: string, displayName: string, value: string)

  /** An item version. `created` and `updated` are the item statistics as
      DateTime ticks (units of 100 ns); `parentPath` is `item.Parent.Paths.Path`. */
  datatype Item = Item(
    db: string,
    id: Id,
    name: string,
    path: string,
    parentPath: string,
    fields: seq<Field>,
    children: seq<Item>,
    created: int,
    updated: int,
    sortOrder: int)

  /** Position of the first field called `name`: the model's stand-in for the
      field `item.Fields[name]` finds (which of several namesakes Sitecore
      returns is not part of this model). */
  function FieldIndex(fs: seq<Field>, name: string): (r: Option<nat>)
    ensures r.Some? ==> r.value < |fs| && fs[r.value].name == name
                        && forall j :: 0 <= j < r.value ==> fs[j].name != name
    ensures r.None? <==> forall j :: 0 <= j < |fs| ==> fs[j].name != name
  {
    if fs == [] then None
    else if fs[0].name == name then Some(0)
    else match FieldIndex(fs[1..], name)
      case None => None
      case Some(k) => Some(k + 1)
  }

  /** `item.Fields[name]`: the first field of that name, or null. */
  function FieldNamed(item: Item, name: string): Option<Field> {
    match FieldIndex(item.fields, name)
    case None => None
    case Some(k) => Some(item.fields[k])
  }

  /** `item[name]`: the value of the field of that name, or the empty string. */
  function ValueOf(item: Item, name: string): string {
    match FieldNamed(item, name)
    case None => ""
    case Some(f) => f.value
  }

  /** `item.Fields[name].DisplayName`. */
  function DisplayNameOf(item: Item, name: string): string {
    match FieldNamed(item, name)
    case None => name
    case Some(f) => f.displayName
  }

  /** When the names of a field list are pairwise distinct, a name is found where it stands. */
  lemma FieldIndexUnique(fs: seq<Field>, j: nat)
    requires j < |fs|
    requires forall a, b :: 0 <= a < b < |fs| ==> fs[a].name != fs[b].name
    ensures FieldIndex(fs, fs[j].name) == Some(j)
  {
  }

  // ---------------------------------------------------------------- templates

  datatype Template = Template(id: Id, name: string)

  /** `TemplateChangeAction`: only DeleteField is told apart by the handler;
      `actionName` is the rendered name of any other action. */
  datatype TemplateChangeAction = DeleteField | OtherAction(actionName: string)

  function ActionText(a: TemplateChangeAction): string {
    match a
    case DeleteField => "DeleteField"
    case OtherAction(name) => name
  }

  /** One entry of a template change list; `sourceFieldName` is `c.SourceField.Name`. */
  datatype TemplateChange = TemplateChange(action: TemplateChangeAction, sourceFieldName: string)

  datatype TemplateChangeList = TemplateChangeList(target: Template, source: Template, changes: seq<TemplateChange>)

  // ---------------------------------------------------------------- publishing

  /** `PublishOperation`: Skipped is told apart; `operationName` renders any other operation. */
  datatype PublishOperation = Skipped | Performed(operationName: string)

  function OperationText(op: PublishOperation): string {
    match op
    case Skipped => "Skipped"
    case Performed(name) => name
  }

  /** What the publish helper reports for the source item: it exists (and is
      fetched), it does not exist, or asking throws. */
  datatype SourceLookup = Exists(item: Item) | Missing | LookupFails

  /** The parts of `PublishItemContext` the handler reads. `rootItemId` is None
      when `PublishOptions.RootItem` is null. */
  datatype PublishContext = PublishContext(
    operation: PublishOperation,
    explanation: string,
    itemId: Id,
    compareRevisions: bool,
    rootItemId: Option<Id>,
    source: SourceLookup)

  /** The argument of a `publish:itemProcessed` event: an `ItemProcessedEventArgs`
      or some other event-args object. */
  datatype ProcessedArgs = ItemProcessed(context: PublishContext) | OtherArgs

  // ---------------------------------------------------------------- events

  /** The repository events the handler can subscribe to. */
  datatype EventKind =
    | Creating | Saving | Deleting | Copying | Moving | Renamed
    | SortOrderChanged | TemplateChanged | Published

  /** One event with its payload, as the handler extracts it. `db` stands for
      the lookups `Database.Items[id]` in the database of the event's item
      (for a creation, the parent's); `baseline` is the stored version that
      `Database.GetItem(id, language, version)` returns, if any. */
  datatype Event =
    | ItemCreating(parent: Item, itemName: string, itemId: Id, templateId: Id, db: map<Id, Item>)
    | ItemSaving(item: Item, baseline: Option<Item>)
    | ItemDeleting(item: Item)
    | ItemCopying(item: Item, destination: Item, copyName: string, copyId: Id, recursive: bool)
    | ItemMoving(item: Item, db: map<Id, Item>, oldParentId: Id, newParentId: Id)
    | ItemRenamed(item: Item, previousName: string)
    | ItemSortOrderChanged(item: Item, oldSortOrder: string)
    | ItemTemplateChanged(item: Item, change: TemplateChangeList)
    | ItemPublished(args: ProcessedArgs)

  function KindOf(e: Event): EventKind {
    match e
    case ItemCreating(_, _, _, _, _) => Creating
    case ItemSaving(_, _) => Saving
    case ItemDeleting(_) => Deleting
    case ItemCopying(_, _, _, _, _) => Copying
    case ItemMoving(_, _, _, _) => Moving
    case ItemRenamed(_, _) => Renamed
    case ItemSortOrderChanged(_, _) => SortOrderChanged
    case ItemTemplateChanged(_, _) => TemplateChanged
    case ItemPublished(_) => Published
  }

  // ---------------------------------------------------------------- configuration

  /** The settings read once when the class is loaded. */
  datatype Config = Config(
    auditingEnabled: bool,
    isCas: bool,
    preventDuplicateNames: bool,
    itemCreating: bool,
    itemSaving: bool,
    itemDeleting: bool,
    itemCopying: bool,
    itemMoving: bool,
    itemRenamed: bool,
    itemSortOrderChanged: bool,
    itemTemplateChanged: bool,
    itemPublished: bool)

  /** `Settings.GetBoolSetting(name, default)`. */
  function GetBoolSetting(settings: map<string, bool>, name: string, default: bool): bool {
    if name in settings then settings[name] else default
  }

  /** Reads every switch with its default: a setting that is present decides
      its switch, and a missing one leaves the documented default.
      `websiteDatabase` is the `database` property of the "website" site. */
  function LoadConfig(settings: map<string, bool>, websiteDatabase: string): (c: Config)
    ensures c.isCas <==> Lower(websiteDatabase) == "master"
    ensures c.auditingEnabled == ("Audit.Enabled" !in settings || settings["Audit.Enabled"])
    ensures c.preventDuplicateNames == ("PreventDuplicateItemNames" in settings && settings["PreventDuplicateItemNames"])
    ensures c.itemCreating == ("Audit.ItemCreating" !in settings || settings["Audit.ItemCreating"])
    ensures c.itemSaving == ("Audit.ItemSaving" !in settings || settings["Audit.ItemSaving"])
    ensures c.itemDeleting == ("Audit.ItemDeleting" !in settings || settings["Audit.ItemDeleting"])
    ensures c.itemCopying == ("Audit.ItemCopying" !in settings || settings["Audit.ItemCopying"])
    ensures c.itemMoving == ("Audit.ItemMoving" !in settings || settings["Audit.ItemMoving"])
    ensures c.itemRenamed == ("Audit.ItemRenamed" !in settings || settings["Audit.ItemRenamed"])
    ensures c.itemSortOrderChanged == ("Audit.ItemSortOrderChanged" in settings && settings["Audit.ItemSortOrderChanged"])
    ensures c.itemTemplateChanged == ("Audit.ItemTemplateChanged" !in settings || settings["Audit.ItemTemplateChanged"])
    ensures c.itemPublished == ("Audit.ItemPublished" in settings && settings["Audit.ItemPublished"])
    ensures settings == map[] ==>
      c.auditingEnabled && !c.preventDuplicateNames &&
      c.itemCreating && c.itemSaving && c.itemDeleting && c.itemCopying &&
      c.itemMoving && c.itemRenamed && !c.itemSortOrderChanged &&
      c.itemTemplateChanged && !c.itemPublished
  {
    Config(
      auditingEnabled := GetBoolSetting(settings, "Audit.Enabled", true),
      isCas := Lower(websiteDatabase) == "master",
      preventDuplicateNames := GetBoolSetting(settings, "PreventDuplicateItemNames", false),
      itemCreating := GetBoolSetting(settings, "Audit.ItemCreating", true),
      itemSaving := GetBoolSetting(settings, "Audit.ItemSaving", true),
      itemDeleting := GetBoolSetting(settings, "Audit.ItemDeleting", true),
      itemCopying := GetBoolSetting(settings, "Audit.ItemCopying", true),
      itemMoving := GetBoolSetting(settings, "Audit.ItemMoving", true),
      itemRenamed := GetBoolSetting(settings, "Audit.ItemRenamed", true),
      itemSortOrderChanged := GetBoolSetting(settings, "Audit.ItemSortOrderChanged", false),
      itemTemplateChanged := GetBoolSetting(settings, "Audit.ItemTemplateChanged", true),
      itemPublished := GetBoolSetting(settings, "Audit.ItemPublished", false))
  }
}
