/** The text of each audit line. Every line is one string built from fixed
    ASCII punctuation and the substituted parts; `identity` stands for the
    rendering of an item by the item formatter. */
module Formatter {
  import opened Strings

  function CreateLine(db: string, parentPath: string, itemName: string, itemId: string, templateName: string): string {
    "CREATE: " + db + ":" + parentPath + "/" + itemName + ", id: " + itemId + ", template: " + templateName
  }

  function DeleteLine(identity: string): string {
    "DELETE: " + identity
  }

  /** The summary line of a save. */
  function SaveHeaderLine(identity: string): string {
    "SAVE: " + identity
  }

  /** The line for one changed field of a save. */
  function SaveFieldLine(identity: string, displayName: string, newValue: string, oldValue: string): string {
    "SAVE: " + identity + ", ** [" + displayName + "]: new: " + newValue + ", old: " + oldValue
  }

  /** How the old value of a changed field is shown: blank values as the empty string. */
  function ShownOld(value: string): (r: string)
    ensures r == "" <==> IsBlank(value)
    ensures !IsBlank(value) ==> r == value
  {
    if IsBlank(value) then "" else value
  }

  /** The recursive-copy note, present only when the copied item has children. */
  function RecursiveNote(hasChildren: bool, recursive: bool): string {
    if hasChildren then " recursive: " + BoolText(recursive) else ""
  }

  function CopyLine(verb: string, db: string, path: string, destinationPath: string, itemName: string, itemId: string, note: string): string {
    verb + ": " + db + ":" + path + ", destination: " + destinationPath + "/" + itemName + ", id: " + itemId + note
  }

  function MoveLine(name: string, oldDb: string, oldPath: string, newDb: string, newPath: string): string {
    "MOVE: [" + name + "] from: " + oldDb + ":" + oldPath + " to: " + newDb + ":" + newPath
  }

  function RenameLine(db: string, parentPath: string, oldName: string, newName: string): string {
    "RENAME: " + db + ":" + parentPath + "/" + oldName + ", as: " + newName
  }

  function SortLine(db: string, path: string, newSortOrder: int, oldSortOrder: string): string {
    "SORT: " + db + ":" + path + ", new: " + IntText(newSortOrder) + ", old: " + oldSortOrder
  }

  function TemplateHeaderLine(db: string, path: string, targetName: string, sourceName: string): string {
    "TEMPLATE CHANGE: " + db + ":" + path + ", target: " + targetName + ", source: " + sourceName
  }

  /** The line for one structural change of a template change. */
  function ChangeLine(action: string, fieldName: string): string {
    "** " + action + ": " + fieldName
  }

  function PublishLine(operation: string, subject: string): string {
    "PUBLISH [" + operation + "]: " + subject
  }

  function ExplanationLine(explanation: string): string {
    "** " + explanation
  }
}
