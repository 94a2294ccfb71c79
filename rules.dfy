/** The decisions the handler takes before it writes anything: which database
    is audited, when a save gets a summary line, when a new item name clashes
    with a sibling, and how copies, renames and moves are told apart. */
module Rules {
  import opened Wrappers
  import opened Strings
  import opened Domain

  // ---------------------------------------------------------------- environment

  /** The database name test of `ShouldAudit`: lower-cased, it is "master". */
  predicate IsMaster(db: string) {
    Lower(db) == "master"
  }

  /** `ShouldAudit(item)`: only items of the master (authoring) database are audited. */
  predicate ShouldAudit(item: Item) {
    IsMaster(item.db)
  }

  /** The test is case-insensitive equality with "master", letter by letter. */
  lemma IsMasterIgnoresCase(db: string)
    ensures IsMaster(db) <==> |db| == 6 && forall i :: 0 <= i < 6 ==> LowerChar(db[i]) == "master"[i]
  {
    if |db| == 6 && forall i :: 0 <= i < 6 ==> LowerChar(db[i]) == "master"[i] {
      assert forall i :: 0 <= i < 6 ==> Lower(db)[i] == "master"[i];
    }
  }

  lemma IsMasterExamples()
    ensures IsMaster("master") && IsMaster("Master") && IsMaster("MASTER")
    ensures !IsMaster("web")
  {
    IsMasterIgnoresCase("master");
    IsMasterIgnoresCase("Master");
    IsMasterIgnoresCase("MASTER");
    IsMasterIgnoresCase("web");
  }

  // ---------------------------------------------------------------- save summary line

  /** DateTime ticks per second. */
  const TicksPerSecond := 10_000_000

  /** "TotalSeconds > 2", in ticks. */
  const HeaderThreshold := 2 * TicksPerSecond

  /** The summary `SAVE:` line is written only when the item was created, and
      last saved, more than two seconds before this save. */
  predicate ShouldEmitHeader(created: int, lastSaved: int, updated: int) {
    updated - created > HeaderThreshold && updated - lastSaved > HeaderThreshold
  }

  /** A quick save right after creation, or right after the previous save, gets
      no summary line; a save well after both does. */
  lemma HeaderExamples(t0: int)
    ensures !ShouldEmitHeader(t0, t0 + TicksPerSecond, t0 + 15 * TicksPerSecond / 10)
    ensures ShouldEmitHeader(t0, t0 + 5 * TicksPerSecond, t0 + 10 * TicksPerSecond)
    ensures !ShouldEmitHeader(t0, t0, t0 + HeaderThreshold)
  {
  }

  // ---------------------------------------------------------------- duplicate-name guard

  /** The proposed name as the guard compares it: spaces become dashes, then lower case. */
  function NormalizeName(name: string): string {
    Lower(ReplaceChar(name, ' ', '-'))
  }

  /** A sibling that the new item's name clashes with: another item whose
      lower-cased name is the normalized proposed name. */
  predicate Collides(child: Item, itemName: string, itemId: Id) {
    NormalizeName(itemName) == Lower(child.name) && itemId != child.id
  }

  /** The first child at or after `from` that the proposed name clashes with. */
  function FirstCollision(children: seq<Item>, itemName: string, itemId: Id, from: nat): (r: Option<nat>)
    requires from <= |children|
    ensures r.Some? ==> from <= r.value < |children| && Collides(children[r.value], itemName, itemId)
                        && forall j :: from <= j < r.value ==> !Collides(children[j], itemName, itemId)
    ensures r.None? <==> forall j :: from <= j < |children| ==> !Collides(children[j], itemName, itemId)
    decreases |children| - from
  {
    if from == |children| then None
    else if Collides(children[from], itemName, itemId) then Some(from)
    else FirstCollision(children, itemName, itemId, from + 1)
  }

  /** The guard runs only in the "shell" site and only when duplicate names are prevented. */
  predicate GuardActive(config: Config, siteName: string) {
    siteName == "shell" && config.preventDuplicateNames
  }

  /** The creation is cancelled because the proposed name clashes with a sibling. */
  predicate CreationRejected(config: Config, siteName: string, parent: Item, itemName: string, itemId: Id) {
    config.itemCreating && GuardActive(config, siteName)
    && FirstCollision(parent.children, itemName, itemId, 0).Some?
  }

  /** The text of the alert shown to the editor. */
  function AlertText(existingName: string): string {
    "Name \"" + existingName + "\" is already in use. Please use another name for the item."
  }

  /** A scan that reached child `i` without a clash and clashes there has found the first clash. */
  lemma FirstCollisionAt(children: seq<Item>, itemName: string, itemId: Id, i: nat)
    requires i < |children| && Collides(children[i], itemName, itemId)
    requires forall j :: 0 <= j < i ==> !Collides(children[j], itemName, itemId)
    ensures FirstCollision(children, itemName, itemId, 0) == Some(i)
  {
  }

  lemma LowerIs(s: string, t: string)
    requires |s| == |t| && forall i :: 0 <= i < |s| ==> LowerChar(s[i]) == t[i]
    ensures Lower(s) == t
  {
  }

  lemma ReplaceIs(s: string, t: string)
    requires |s| == |t| && forall i :: 0 <= i < |s| ==> t[i] == (if s[i] == ' ' then '-' else s[i])
    ensures ReplaceChar(s, ' ', '-') == t
  {
  }

  /** "Page-1" cannot be created beside "page-1", nor "New Page" beside "new-page". */
  lemma GuardExamples(a: Item, b: Item)
    requires a.name == "page-1" && a.id != "{2}"
    requires b.name == "new-page" && b.id != "{3}"
    ensures Collides(a, "Page-1", "{2}")
    ensures Collides(b, "New Page", "{3}")
  {
    ReplaceIs("Page-1", "Page-1");
    LowerIs("Page-1", "page-1");
    LowerIs("page-1", "page-1");
    ReplaceIs("New Page", "New-Page");
    LowerIs("New-Page", "new-page");
    LowerIs("new-page", "new-page");
  }

  // ---------------------------------------------------------------- structural events

  /** A copy into the source's own parent under a new name is a duplicate. */
  predicate IsDuplicate(item: Item, destination: Item, newName: string) {
    item.parentPath == destination.path && item.name != newName
  }

  /** A rename notification whose previous name is the current one changes nothing. */
  predicate IsRealRename(item: Item, previousName: string) {
    previousName != item.name
  }

  /** Both parents of a move resolve in the item's database, and they are different items. */
  predicate MoveResolves(db: map<Id, Item>, oldParentId: Id, newParentId: Id) {
    oldParentId in db && newParentId in db && db[oldParentId].id != db[newParentId].id
  }

  // ---------------------------------------------------------------- switches

  /** The switch `OnStart` tests before subscribing the handler of a kind. */
  predicate Subscribes(config: Config, kind: EventKind) {
    match kind
    case Creating => config.itemCreating
    case Saving => config.itemSaving
    case Deleting => config.itemDeleting
    case Copying => config.itemCopying
    case Moving => config.itemMoving
    case Renamed => config.itemRenamed
    case SortOrderChanged => config.itemSortOrderChanged
    case TemplateChanged => config.itemTemplateChanged
    case Published => config.itemPublished
  }

  /** The switch a handler tests again when it runs. The template-change
      handler tests the item-deleting switch, not its own. */
  predicate HandlerGate(config: Config, kind: EventKind) {
    match kind
    case TemplateChanged => config.itemDeleting
    case _ => Subscribes(config, kind)
  }
}
